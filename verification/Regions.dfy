/** internal/cloudscale/regions.go: the two indexes built from the API's region list. */
module Regions {
  import opened Types

  datatype Region = Region(slug: Name, zones: seq<Name>)

  /** `zonesOf` maps a region to its zones, `regionOf` a zone to its region. */
  datatype RegionInfo = RegionInfo(zonesOf: map<Name, seq<Name>>, regionOf: map<Name, Name>)

  /** The last region of that name in the list decides. */
  ghost function ZonesOf(rs: seq<Region>, slug: Name): Option<seq<Name>> {
    if rs == [] then None else
    var last := rs[|rs| - 1];
    if last.slug == slug then Some(last.zones) else ZonesOf(rs[..|rs| - 1], slug)
  }

  /** The last region that lists the zone decides. */
  ghost function RegionOf(rs: seq<Region>, zone: Name): Option<Name> {
    if rs == [] then None else
    var last := rs[|rs| - 1];
    if zone in last.zones then Some(last.slug) else RegionOf(rs[..|rs| - 1], zone)
  }

  ghost predicate Indexes(ri: RegionInfo, rs: seq<Region>) {
    && (forall r :: r in ri.zonesOf <==> ZonesOf(rs, r).Some?)
    && (forall r | r in ri.zonesOf :: ri.zonesOf[r] == ZonesOf(rs, r).value)
    && (forall z :: z in ri.regionOf <==> RegionOf(rs, z).Some?)
    && (forall z | z in ri.regionOf :: ri.regionOf[z] == RegionOf(rs, z).value)
  }

  method NewRegionInfo(rs: seq<Region>) returns (ri: RegionInfo)
    ensures Indexes(ri, rs)
  {
    ri := RegionInfo(map[], map[]);
    for k := 0 to |rs|
      invariant Indexes(ri, rs[..k])
    {
      var r := rs[k];
      ghost var was := ri;
      var zones: seq<Name> := [];
      for i := 0 to |r.zones|
        invariant zones == r.zones[..i] && ri.zonesOf == was.zonesOf
        invariant forall z :: z in ri.regionOf <==> z in was.regionOf || z in zones
        invariant forall z | z in ri.regionOf :: ri.regionOf[z] == if z in zones then r.slug else was.regionOf[z]
      {
        zones := zones + [r.zones[i]];
        ri := ri.(regionOf := ri.regionOf[r.zones[i] := r.slug]);
      }
      ri := ri.(zonesOf := ri.zonesOf[r.slug := zones]);
      assert rs[..k + 1][..k] == rs[..k] && rs[..k + 1][k] == r;
    }
    assert rs[..|rs|] == rs;
  }

  predicate ZoneBelongsToRegion(ri: RegionInfo, zone: Name, region: Name) {
    zone in ri.regionOf && ri.regionOf[zone] == region
  }

  function DefaultZone(ri: RegionInfo, region: Name): Option<Name> {
    if region in ri.zonesOf && ri.zonesOf[region] != [] then Some(ri.zonesOf[region][0]) else None
  }

  /** No zone is listed by two regions of different names. */
  ghost predicate ZonesDisjoint(rs: seq<Region>) {
    forall i, j, z | 0 <= i < |rs| && 0 <= j < |rs| && z in rs[i].zones && z in rs[j].zones :: rs[i].slug == rs[j].slug
  }

  lemma {:induction false} RegionOfIsLast(rs: seq<Region>, zone: Name)
    ensures RegionOf(rs, zone).None? <==> forall i | 0 <= i < |rs| :: zone !in rs[i].zones
    ensures RegionOf(rs, zone).Some? ==>
              exists i :: 0 <= i < |rs| && zone in rs[i].zones && rs[i].slug == RegionOf(rs, zone).value &&
                          forall j | i < j < |rs| :: zone !in rs[j].zones
  {
    if rs != [] {
      var k := |rs| - 1;
      if zone !in rs[k].zones {
        RegionOfIsLast(rs[..k], zone);
        assert forall i | 0 <= i < k :: rs[..k][i] == rs[i];
      }
    }
  }

  lemma {:induction false} ZonesOfIsListed(rs: seq<Region>, slug: Name)
    requires ZonesOf(rs, slug).Some?
    ensures exists i :: 0 <= i < |rs| && rs[i].slug == slug && rs[i].zones == ZonesOf(rs, slug).value
  {
    var k := |rs| - 1;
    if rs[k].slug != slug {
      ZonesOfIsListed(rs[..k], slug);
      var i :| 0 <= i < k && rs[..k][i].slug == slug && rs[..k][i].zones == ZonesOf(rs[..k], slug).value;
      assert rs[i] == rs[..k][i];
    }
  }

  /** The zone a region defaults to passes the zone check, for every list without shared zones. */
  lemma DefaultZonePasses(ri: RegionInfo, rs: seq<Region>, region: Name)
    requires Indexes(ri, rs) && ZonesDisjoint(rs) && DefaultZone(ri, region).Some?
    ensures ZoneBelongsToRegion(ri, DefaultZone(ri, region).value, region)
  {
    var zone := DefaultZone(ri, region).value;
    ZonesOfIsListed(rs, region);
    RegionOfIsLast(rs, zone);
  }

  /** In general it passes exactly when the last region to list the zone is this region. */
  lemma DefaultZonePassesIff(ri: RegionInfo, rs: seq<Region>, region: Name)
    requires Indexes(ri, rs) && DefaultZone(ri, region).Some?
    ensures var zone := DefaultZone(ri, region).value;
            ZoneBelongsToRegion(ri, zone, region) <==>
            exists i :: 0 <= i < |rs| && rs[i].slug == region && zone in rs[i].zones &&
                        forall j | i < j < |rs| && zone in rs[j].zones :: rs[j].slug == region
  {
    var zone := DefaultZone(ri, region).value;
    ZonesOfIsListed(rs, region);
    RegionOfIsLast(rs, zone);
    var l :| 0 <= l < |rs| && zone in rs[l].zones && rs[l].slug == RegionOf(rs, zone).value &&
             forall j | l < j < |rs| :: zone !in rs[j].zones;
    if i :| 0 <= i < |rs| && rs[i].slug == region && zone in rs[i].zones &&
            forall j | i < j < |rs| && zone in rs[j].zones :: rs[j].slug == region {
      assert l == i || l > i;
    }
  }
}
