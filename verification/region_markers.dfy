/**
 The cloud-region rings on the globe (components/globe/RegionMarkers.tsx):
 the regions of the selected providers, in table order, each in its
 provider's colour; the globe shows them only while regions are switched on.
 */
module RegionMarkers {
  import opened Types
  import opened Seqs
  import opened ExchangeData
  import opened AppStore

  /** The filter callback: the region's provider is selected. */
  function ShowsRegion(selected: seq<CloudProvider>, r: CloudRegion): bool {
    r.provider in selected
  }

  /** `filteredRegions` over a region list: those of a selected provider, in list order. */
  function RegionsOf(regions: seq<CloudRegion>, selected: seq<CloudProvider>): (r: seq<CloudRegion>)
    ensures IsSubsequence(r, regions)
    ensures forall k :: 0 <= k < |r| ==> r[k] in regions && r[k].provider in selected
    ensures forall k :: 0 <= k < |regions| ==> (regions[k] in r <==> regions[k].provider in selected)
  {
    var keep := (r: CloudRegion) => ShowsRegion(selected, r);
    FilterIsSubsequence(regions, keep);
    Filter(regions, keep)
  }

  /** `filteredRegions` itself, over the shipped table. */
  function FilteredRegions(selected: seq<CloudProvider>): (r: seq<CloudRegion>)
    ensures IsSubsequence(r, CLOUD_REGIONS)
    ensures forall k :: 0 <= k < |CLOUD_REGIONS| ==> (CLOUD_REGIONS[k] in r <==> CLOUD_REGIONS[k].provider in selected)
  {
    RegionsOf(CLOUD_REGIONS, selected)
  }

  /** A block of one provider's regions is shown whole or not at all. */
  lemma BlockAllOrNothing(block: seq<CloudRegion>, p: CloudProvider, selected: seq<CloudProvider>)
    requires forall k :: 0 <= k < |block| ==> block[k].provider == p
    ensures RegionsOf(block, selected) == if p in selected then block else []
  {
    var keep := (r: CloudRegion) => ShowsRegion(selected, r);
    if p in selected {
      FilterAll(block, keep);
    } else {
      FilterNone(block, keep);
    }
  }

  /** The table order is kept: AWS rings, then GCP rings, then Azure rings, each block whole or absent. */
  lemma FilteredRegionsByBlock(selected: seq<CloudProvider>)
    ensures FilteredRegions(selected) ==
      (if AWS in selected then AWS_REGIONS else []) +
      (if GCP in selected then GCP_REGIONS else []) +
      (if Azure in selected then AZURE_REGIONS else [])
  {
    var keep := (r: CloudRegion) => ShowsRegion(selected, r);
    RegionBlocksByProvider();
    FilterConcat(AWS_REGIONS + GCP_REGIONS, AZURE_REGIONS, keep);
    FilterConcat(AWS_REGIONS, GCP_REGIONS, keep);
    BlockAllOrNothing(AWS_REGIONS, AWS, selected);
    BlockAllOrNothing(GCP_REGIONS, GCP, selected);
    BlockAllOrNothing(AZURE_REGIONS, Azure, selected);
  }

  /** The number of rings is 7 for AWS, 4 for GCP and 2 for Azure, added over the selected providers. */
  lemma RegionCount(selected: seq<CloudProvider>)
    ensures |FilteredRegions(selected)| ==
      (if AWS in selected then 7 else 0) + (if GCP in selected then 4 else 0) + (if Azure in selected then 2 else 0)
  {
    FilteredRegionsByBlock(selected);
  }

  /** All three providers show the whole table of thirteen; none shows nothing. */
  lemma AllOrNoProviders(selected: seq<CloudProvider>)
    ensures AWS in selected && GCP in selected && Azure in selected ==>
      FilteredRegions(selected) == CLOUD_REGIONS && |FilteredRegions(selected)| == 13
    ensures selected == [] ==> FilteredRegions(selected) == []
  {
    FilteredRegionsByBlock(selected);
  }

  /** Selecting one more provider never removes a ring. */
  lemma MoreProvidersMoreRegions(selected: seq<CloudProvider>, p: CloudProvider)
    ensures IsSubsequence(FilteredRegions(selected), FilteredRegions(selected + [p]))
  {
    FilterWeaker(CLOUD_REGIONS, (r: CloudRegion) => ShowsRegion(selected, r), (r: CloudRegion) => ShowsRegion(selected + [p], r));
  }

  /** `regionColor`: the provider's colour; rings of different providers differ in colour. */
  function RegionColor(r: CloudRegion): (color: string)
    ensures r.provider in PROVIDER_COLORS && color == PROVIDER_COLORS[r.provider]
  {
    ProviderColor(r.provider)
  }

  lemma RegionColorsTellProvidersApart(a: CloudRegion, b: CloudRegion)
    ensures RegionColor(a) == RegionColor(b) <==> a.provider == b.provider
  {
    if a.provider != b.provider {
      ProviderColorsDistinct(a.provider, b.provider);
    }
  }

  /** The rings the globe draws: the filtered regions while regions are switched on, otherwise none. */
  function DrawnRegions(s: AppState): (r: seq<CloudRegion>)
    ensures !s.showRegions ==> r == []
    ensures s.showRegions ==> r == FilteredRegions(s.selectedProviders)
  {
    if s.showRegions then FilteredRegions(s.selectedProviders) else []
  }

  /** At start-up all thirteen rings are drawn. */
  lemma InitialDrawsAllRegions()
    ensures |DrawnRegions(Initial())| == 13
  {
    AllOrNoProviders(Initial().selectedProviders);
  }
}
