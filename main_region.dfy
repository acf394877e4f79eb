/**
 * The main-region construct's list of service ARNs: one per region of the
 * deployment, for the policy that lets the start handler reach every
 * region's game service.
 */
module MainRegion {
  import Regions

  /** One entry of `settings["regions"]`: a region code and the region it names. */
  datatype RegionEntry = RegionEntry(code: string, region: string)

  /** The settings `list_clusters` reads; the regions in the dictionary's iteration order. */
  datatype Settings = Settings(regions: seq<RegionEntry>, clusterName: string, serviceName: string)

  /** `list_clusters`: appends the service ARN of each region value, in order. */
  method ListClusters(settings: Settings, account: string) returns (clusters: seq<string>)
    ensures |clusters| == |settings.regions|
    ensures forall i :: 0 <= i < |clusters| ==>
      clusters[i] == Regions.ServiceArn(settings.regions[i].region, account, settings.clusterName, settings.serviceName)
    ensures forall entry :: entry in settings.regions ==>
      Regions.ServiceArn(entry.region, account, settings.clusterName, settings.serviceName) in clusters
  {
    clusters := [];
    for i := 0 to |settings.regions|
      invariant |clusters| == i
      invariant forall j :: 0 <= j < i ==>
        clusters[j] == Regions.ServiceArn(settings.regions[j].region, account, settings.clusterName, settings.serviceName)
    {
      var entry := settings.regions[i];
      clusters := clusters + [Regions.ServiceArn(entry.region, account, settings.clusterName, settings.serviceName)];
    }
  }
}
