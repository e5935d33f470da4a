/** The derived artifacts under the cache root `data/insee`. */
module Catalogue {

  /** One artifact of the cache; `RelPath` gives the file it lives in. */
  datatype Artifact =
    | Jobs | ActivePopulation | Malls | Shops | Schools | Admin | Sport | Care | Show | Museum
    | Restaurants | WorkHomeFlows | Communes

  /** The artifact's path relative to the cache root. */
  function RelPath(a: Artifact): string {
    match a
    case Jobs => "work/jobs.parquet"
    case ActivePopulation => "work/active_population.parquet"
    case Malls => "facilities/malls.parquet"
    case Shops => "facilities/shops.parquet"
    case Schools => "facilities/schools.parquet"
    case Admin => "facilities/admin_facilities.parquet"
    case Sport => "facilities/sport_facilities.parquet"
    case Care => "facilities/care_facilities.parquet"
    case Show => "facilities/show_facilities.parquet"
    case Museum => "facilities/museum.parquet"
    case Restaurants => "facilities/restaurants.parquet"
    case WorkHomeFlows => "work_home_flows/FD_MOBPRO_2019.csv"
    case Communes => "commune_data/donneesCommunes.csv"
  }

  /** The thirteen artifacts whose existence gates regeneration, in the order they are probed. */
  const CheckedArtifacts: seq<Artifact> :=
    [Jobs, ActivePopulation, Malls, Shops, Schools, Admin, Sport, Care, Show, Museum,
     Restaurants, WorkHomeFlows, Communes]

  /** The ten parquet artifacts that are read, in reading order. */
  const ParquetArtifacts: seq<Artifact> :=
    [Jobs, ActivePopulation, Shops, Schools, Admin, Sport, Care, Show, Museum, Restaurants]

  /** The twelve artifacts that are read, in the order they are read: every checked one but malls. */
  const LoadedArtifacts: seq<Artifact> := ParquetArtifacts + [WorkHomeFlows, Communes]

  /** The keys of the returned bundle. */
  const BundleKeys: set<string> :=
    {"jobs", "active_population", "shops", "schools", "admin", "sport", "care", "show",
     "museum", "restaurant", "raw_flowDT", "coordonnees"}

  /** The malls artifact is checked for but never read; everything read was checked. */
  lemma CatalogueShape()
    ensures |CheckedArtifacts| == 13 && |LoadedArtifacts| == 12 && |BundleKeys| == 12
    ensures forall i, j :: 0 <= i < j < |CheckedArtifacts| ==> CheckedArtifacts[i] != CheckedArtifacts[j]
    ensures Malls !in LoadedArtifacts
    ensures forall a :: a in LoadedArtifacts <==> a in CheckedArtifacts && a != Malls
  {
  }

  /** The read artifacts are the checked ones with malls, the third, skipped. */
  lemma LoadedAreChecked()
    ensures forall i :: 0 <= i < |LoadedArtifacts| ==>
      LoadedArtifacts[i] == CheckedArtifacts[if i < 2 then i else i + 1]
  {
  }

  /** Distinct artifacts live in distinct files. */
  lemma RelPathInjective(a: Artifact, b: Artifact)
    ensures RelPath(a) == RelPath(b) ==> a == b
  {
  }
}
