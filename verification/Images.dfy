/** The table of database images and the upgrades each version is offered. */
module Images {
  import opened Base

  datatype Image = Image(name: string, versions: seq<int>)

  // The table this repository ships.
  const SHIPPED: seq<Image> := [
    Image("ghcr.io/rkojedzinszky/postgres-patroni:20251017", [13, 15]),
    Image("ghcr.io/rkojedzinszky/postgres-patroni:20260707", [15, 17])]

  // The image that serves version v: the last one that lists it.
  function Lookup(images: seq<Image>, v: int): Option<Image> {
    if images == [] then None
    else if v in images[|images| - 1].versions then Some(images[|images| - 1])
    else Lookup(images[..|images| - 1], v)
  }

  // The versions above v, in their order.
  function Above(versions: seq<int>, v: int): seq<int> {
    if versions == [] then []
    else
      var rest := Above(versions[..|versions| - 1], v);
      var last := versions[|versions| - 1];
      if last > v then rest + [last] else rest
  }

  // The upgrades a cluster at version v is offered.
  function Offered(images: seq<Image>, v: int): seq<int> {
    match Lookup(images, v)
    case None => []
    case Some(img) => Above(img.versions, v)
  }

  // init: the loop that fills the registry
  method Register(images: seq<Image>) returns (registry: map<int, Image>)
    ensures forall v :: v in registry <==> Lookup(images, v).Some?
    ensures forall v :: v in registry ==> Lookup(images, v) == Some(registry[v])
  {
    registry := map[];
    for i := 0 to |images|
      invariant forall v :: v in registry <==> Lookup(images[..i], v).Some?
      invariant forall v :: v in registry ==> Lookup(images[..i], v) == Some(registry[v])
    {
      var img := images[i];
      var before := registry;
      for j := 0 to |img.versions|
        invariant forall v :: v in registry <==> v in before || v in img.versions[..j]
        invariant forall v :: v in registry ==> registry[v] == if v in img.versions[..j] then img else before[v]
      {
        registry := registry[img.versions[j] := img];
      }
      assert img.versions[..|img.versions|] == img.versions;
      assert images[..i + 1][..i] == images[..i];
    }
    assert images[..|images|] == images;
  }

  // UpgradeVersions: the loop that filters one image's versions
  method UpgradeVersions(img: Image, version: int) returns (ret: seq<int>)
    ensures ret == Above(img.versions, version)
  {
    ret := [];
    for i := 0 to |img.versions|
      invariant ret == Above(img.versions[..i], version)
    {
      assert img.versions[..i + 1][..i] == img.versions[..i];
      if img.versions[i] > version {
        ret := ret + [img.versions[i]];
      }
    }
    assert img.versions[..|img.versions|] == img.versions;
  }

  lemma {:induction false} AboveMember(versions: seq<int>, v: int, x: int)
    ensures x in Above(versions, v) <==> x in versions && x > v
  {
    if versions != [] {
      var n := |versions| - 1;
      AboveMember(versions[..n], v, x);
      assert versions == versions[..n] + [versions[n]];
    }
  }

  lemma {:induction false} LookupLists(images: seq<Image>, v: int)
    ensures Lookup(images, v).Some? <==> exists i :: 0 <= i < |images| && v in images[i].versions
    ensures Lookup(images, v).Some? ==> Lookup(images, v).value in images && v in Lookup(images, v).value.versions
  {
    if images != [] {
      var n := |images| - 1;
      LookupLists(images[..n], v);
      if v !in images[n].versions && Lookup(images, v).Some? {
        var i :| 0 <= i < n && v in images[..n][i].versions;
        assert v in images[i].versions;
      }
      forall i | 0 <= i < n && v in images[i].versions
        ensures Lookup(images, v).Some?
      {
        assert images[..n][i] == images[i];
      }
    }
  }

  /** What is offered lies above the current version, and the image that runs the current version,
      which is the one the conversion jobs use, has the binaries of both. */
  lemma OfferedHasBinaries(images: seq<Image>, v: int, x: int)
    ensures x in Offered(images, v) <==> Lookup(images, v).Some? && x in Lookup(images, v).value.versions && x > v
    ensures x in Offered(images, v) ==> v in Lookup(images, v).value.versions && Lookup(images, x).Some?
  {
    LookupLists(images, v);
    LookupLists(images, x);
    if Lookup(images, v).Some? {
      var img := Lookup(images, v).value;
      AboveMember(img.versions, v, x);
      var k :| 0 <= k < |images| && images[k] == img;
      if x in img.versions {
        assert x in images[k].versions;
      }
    }
  }
}
