/** The generation sources a utility reports, and one interval of generation data as it is
    stored in a utility's `historical_data_by_generation_type` table. */
module Generation {
  import opened Sums

  /** The nine generation-source columns (the `kWh_*`, `MWh_*` or `daMWh_*` columns). */
  datatype Source =
    | Nuclear
    | Fossil
    | Hydro
    | Geothermal
    | Biomass
    | Solar
    | Wind
    | PumpedStorage
    | Interconnectors

  /** All nine sources, in the order every query expression lists them. */
  const AllSources: seq<Source> :=
    [Nuclear, Fossil, Hydro, Geothermal, Biomass, Solar, Wind, PumpedStorage, Interconnectors]

  /** One interval's volumes. Pumped storage and interconnectors are net flows and may be
      negative. `total` is the stored total column (`kWh_total`) and `demand` the area demand
      column (`MWh_area_demand`); neither is derived from the others. */
  datatype GenerationRow = GenerationRow(
    nuclear: real,
    fossil: real,
    hydro: real,
    geothermal: real,
    biomass: real,
    solar: real,
    wind: real,
    pumpedStorage: real,
    interconnectors: real,
    total: real,
    demand: real)

  /** The volume column of source `s`. */
  function Volume(row: GenerationRow, s: Source): real {
    match s
    case Nuclear => row.nuclear
    case Fossil => row.fossil
    case Hydro => row.hydro
    case Geothermal => row.geothermal
    case Biomass => row.biomass
    case Solar => row.solar
    case Wind => row.wind
    case PumpedStorage => row.pumpedStorage
    case Interconnectors => row.interconnectors
  }

  /** The same row with the volume of source `s` replaced by `v`. */
  function WithVolume(row: GenerationRow, s: Source, v: real): GenerationRow {
    match s
    case Nuclear => row.(nuclear := v)
    case Fossil => row.(fossil := v)
    case Hydro => row.(hydro := v)
    case Geothermal => row.(geothermal := v)
    case Biomass => row.(biomass := v)
    case Solar => row.(solar := v)
    case Wind => row.(wind := v)
    case PumpedStorage => row.(pumpedStorage := v)
    case Interconnectors => row.(interconnectors := v)
  }

  /** Replacing one volume changes that column only. */
  lemma WithVolumeVolume(row: GenerationRow, s: Source, v: real, t: Source)
    ensures Volume(WithVolume(row, s, v), t) == if t == s then v else Volume(row, t)
    ensures WithVolume(row, s, v).total == row.total && WithVolume(row, s, v).demand == row.demand
  {
    match s
    case Nuclear => case Fossil => case Hydro => case Geothermal => case Biomass =>
    case Solar => case Wind => case PumpedStorage => case Interconnectors =>
  }

  /** The same interval with every column (volumes, stored total and demand) multiplied by `c`. */
  function Scaled(row: GenerationRow, c: real): GenerationRow {
    GenerationRow(
      Times(c, row.nuclear), Times(c, row.fossil), Times(c, row.hydro), Times(c, row.geothermal),
      Times(c, row.biomass), Times(c, row.solar), Times(c, row.wind), Times(c, row.pumpedStorage),
      Times(c, row.interconnectors), Times(c, row.total), Times(c, row.demand))
  }

  /** Scaling multiplies every column by the constant. */
  lemma ScaledVolume(row: GenerationRow, c: real, t: Source)
    ensures Volume(Scaled(row, c), t) == Times(c, Volume(row, t))
  {
    match t
    case Nuclear => case Fossil => case Hydro => case Geothermal => case Biomass =>
    case Solar => case Wind => case PumpedStorage => case Interconnectors =>
  }
}
