/** The TEPCO CSV scraper: the translation of the CSV's Japanese (and pandas-generated)
    headers into the `kWh_*` column names, and the `carbon_intensity` column it adds to the
    parsed frame with the legacy calculation. */
module TepcoScraper {
  import opened Generation
  import opened Factors
  import opened Intensity
  import opened LegacyCalculation

  /** `renameHeader`'s table. */
  const Translations: map<string, string> := map[
    "Unnamed: 0" := "date",
    "Unnamed: 1" := "time",
    "Unnamed: 0_Unnamed: 1" := "datetime",
    "Unnamed: 2" := "kWh_demand",
    "原子力" := "kWh_nuclear",
    "火力" := "kWh_fossil",
    "水力" := "kWh_hydro",
    "地熱" := "kWh_geothermal",
    "バイオマス" := "kWh_biomass",
    "太陽光発電実績" := "kWh_solar_output",
    "太陽光出力制御量" := "kWh_solar_throttling",
    "風力発電実績" := "kWh_wind_output",
    "風力出力制御量" := "kWh_wind_throttling",
    "揚水" := "kWh_pumped_storage",
    "連系線" := "kWh_interconnectors",
    "合計" := "kWh_total"]

  /** `renameHeader`: the translation of a listed header, any other header unchanged. */
  function RenameHeader(header: string): (r: string)
    ensures header in Translations ==> r == Translations[header]
    ensures header !in Translations ==> r == header
  {
    if header in Translations then Translations[header] else header
  }

  /** The listed headers. */
  const Headers: set<string> :=
    {"Unnamed: 0", "Unnamed: 1", "Unnamed: 0_Unnamed: 1", "Unnamed: 2", "原子力", "火力", "水力", "地熱",
     "バイオマス", "太陽光発電実績", "太陽光出力制御量", "風力発電実績", "風力出力制御量", "揚水", "連系線", "合計"}

  lemma HeadersListed()
    ensures Translations.Keys == Headers
  {
  }

  /** Every listed header starts with `U` or a non-ASCII character. */
  lemma HeaderStart(header: string)
    requires header in Headers
    ensures |header| > 0 && (header[0] == 'U' || header[0] as int > 127)
  {
  }

  /** Every translated name starts with a lower-case ASCII letter. */
  lemma NameStart(header: string)
    requires header in Translations
    ensures |Translations[header]| > 0 && 'a' <= Translations[header][0] <= 'z'
  {
  }

  /** No translated name is itself a listed header. */
  lemma TranslationsLeaveTheTable(header: string)
    requires header in Translations
    ensures Translations[header] !in Translations
  {
    NameStart(header);
    HeadersListed();
    if Translations[header] in Headers {
      HeaderStart(Translations[header]);
    }
  }

  /** Renaming twice is renaming once. */
  lemma RenameHeaderIdempotent(header: string)
    ensures RenameHeader(RenameHeader(header)) == RenameHeader(header)
  {
    if header in Translations {
      TranslationsLeaveTheTable(header);
    }
  }

  /** Distinct listed headers get distinct names, so no two columns are merged. */
  lemma RenameHeaderInjective(h1: string, h2: string)
    requires h1 in Translations && h2 in Translations && h1 != h2
    ensures RenameHeader(h1) != RenameHeader(h2)
  {
  }

  /** The headers of the ten generation columns, renamed, are exactly the columns the
      calculation reads. */
  lemma RenamedHeadersFeedTheCalculation()
    ensures {RenameHeader("原子力"), RenameHeader("火力"), RenameHeader("水力"), RenameHeader("地熱"),
             RenameHeader("バイオマス"), RenameHeader("太陽光発電実績"), RenameHeader("風力発電実績"),
             RenameHeader("揚水"), RenameHeader("連系線"), RenameHeader("合計")} == ReadColumns("")
  {
    assert RenameHeader("原子力") == "kWh_nuclear" && RenameHeader("火力") == "kWh_fossil";
    assert RenameHeader("水力") == "kWh_hydro" && RenameHeader("地熱") == "kWh_geothermal";
    assert RenameHeader("バイオマス") == "kWh_biomass" && RenameHeader("太陽光発電実績") == "kWh_solar_output";
    assert RenameHeader("風力発電実績") == "kWh_wind_output" && RenameHeader("揚水") == "kWh_pumped_storage";
    assert RenameHeader("連系線") == "kWh_interconnectors" && RenameHeader("合計") == "kWh_total";
    EmptySuffixReadsPlainColumns();
  }

  /** `df.rename(columns=renameHeader)`: every header renamed, in place. */
  function RenameColumns(headers: seq<string>): (r: seq<string>)
    ensures |r| == |headers|
    ensures forall i :: 0 <= i < |headers| ==> r[i] == RenameHeader(headers[i])
  {
    seq(|headers|, i requires 0 <= i < |headers| => RenameHeader(headers[i]))
  }

  /** Renaming a frame's columns a second time changes nothing. */
  lemma RenameColumnsIdempotent(headers: seq<string>)
    ensures RenameColumns(RenameColumns(headers)) == RenameColumns(headers)
  {
    forall i | 0 <= i < |headers|
      ensures RenameColumns(RenameColumns(headers))[i] == RenameColumns(headers)[i]
    {
      RenameHeaderIdempotent(headers[i]);
    }
  }

  /** `getTEPCODataframewithCarbonIntensity` once the CSVs are parsed: the factors are
      fetched once and every row of the frame receives its `carbon_intensity`, read from
      the unsuffixed columns. */
  method CarbonIntensityFrame(frame: Frame, feed: Feed) returns (ok: bool)
    requires forall i :: 0 <= i < |frame.rows| && ReadColumns("") <= frame.rows[i].Keys ==> Computable(frame.rows[i], "")
    modifies frame
    ensures ok <==> (LegacyCarbonIntensityFactors(feed).Some?
      && forall i :: 0 <= i < |old(frame.rows)| ==> ReadColumns("") <= old(frame.rows)[i].Keys)
    ensures !ok ==> frame.rows == old(frame.rows)
    ensures ok ==>
      var factors := LegacyCarbonIntensityFactors(feed).value;
      && HasAllSources(factors)
      && |frame.rows| == |old(frame.rows)|
      && forall i :: 0 <= i < |frame.rows| ==>
           Computable(old(frame.rows)[i], "") && frame.rows[i] == WithIntensity(old(frame.rows)[i], factors, "")
  {
    ok := frame.AddCarbonIntensity(feed, "");
  }
}
