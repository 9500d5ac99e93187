/**
 * The resource cache: the one-byte framing CompressionHelper puts around cached blobs, and the
 * per-name de-duplication the cache's JSON contract resolver applies to properties.
 */
module ResourceCache {
  import opened Common

  type byte = x: int | 0 <= x < 256

  // ---------------------------------------------------------------------------------------
  // CompressionHelper

  /** The flag byte of a blob stored as is. */
  const Stored: byte := 0
  /** The flag byte of a deflated blob. */
  const Deflated: byte := 1
  /** Blobs shorter than this are stored as is. */
  const MinDeflateLength: nat := 1024

  /**
   * Compress: empty stays empty; a short blob, or one the compressor fails on, is the flag 0
   * followed by the data; otherwise the flag 1 followed by the deflated data. `deflate` is the
   * DeflateStream, `None` when it throws.
   */
  function Compress(data: seq<byte>, deflate: seq<byte> -> Option<seq<byte>>): (r: seq<byte>)
    ensures data == [] <==> r == []
    ensures 0 < |data| < MinDeflateLength ==> r == [Stored] + data
    ensures |data| >= MinDeflateLength && deflate(data).Some? ==> r == [Deflated] + deflate(data).value
    ensures |data| > 0 && (|data| < MinDeflateLength || deflate(data).None?) ==> |r| == |data| + 1 && r[1..] == data
  {
    if |data| == 0 then []
    else if |data| < MinDeflateLength then [Stored] + data
    else match deflate(data)
      case Some(z) => [Deflated] + z
      case None => [Stored] + data
  }

  /**
   * Decompress: empty stays empty; flag 0 drops the flag; otherwise the rest is inflated, and
   * the input itself is returned when inflating fails. `inflate` is the DeflateStream in
   * decompress mode, `None` when it throws.
   */
  function Decompress(data: seq<byte>, inflate: seq<byte> -> Option<seq<byte>>): (r: seq<byte>)
    ensures data == [] ==> r == []
    ensures |data| > 0 && data[0] == Stored ==> r == data[1..]
    ensures |data| > 0 && data[0] != Stored && inflate(data[1..]).None? ==> r == data
  {
    if |data| == 0 then []
    else if data[0] == Stored then data[1..]
    else match inflate(data[1..])
      case Some(d) => d
      case None => data
  }

  /** Short blobs come back unchanged whatever the compressor does. */
  lemma ShortRoundTrip(data: seq<byte>, deflate: seq<byte> -> Option<seq<byte>>, inflate: seq<byte> -> Option<seq<byte>>)
    requires |data| < MinDeflateLength
    ensures Decompress(Compress(data, deflate), inflate) == data
  {
  }

  /** Every blob comes back unchanged when inflating undoes deflating. */
  lemma RoundTrip(data: seq<byte>, deflate: seq<byte> -> Option<seq<byte>>, inflate: seq<byte> -> Option<seq<byte>>)
    requires forall x :: deflate(x).Some? ==> inflate(deflate(x).value) == Some(x)
    ensures Decompress(Compress(data, deflate), inflate) == data
  {
    if |data| >= MinDeflateLength && deflate(data).Some? {
      var c := Compress(data, deflate);
      assert c[1..] == deflate(data).value;
    }
  }

  // ---------------------------------------------------------------------------------------
  // IgnoreJsonIgnoreContractResolver

  /** The parts of a JsonProperty the resolver reads; a missing name is `None`. */
  datatype JsonProperty = JsonProperty(propertyName: Option<string>, readable: bool, writable: bool, ignored: bool)
  {
    /** `PropertyName ?? string.Empty`. */
    function Name(): string {
      if propertyName.Some? then propertyName.value else ""
    }
  }

  /** GetPriority: readable counts 2, writable 1, not ignored 1. */
  function GetPriority(p: JsonProperty): (r: int)
    ensures 0 <= r <= 4
    ensures p.readable ==> r >= 2
    ensures r == 4 <==> p.readable && p.writable && !p.ignored
    ensures r == 0 <==> !p.readable && !p.writable && p.ignored
  {
    (if p.readable then 2 else 0) + (if p.writable then 1 else 0) + (if !p.ignored then 1 else 0)
  }

  /** The names in first-seen order and the best property per name, after some properties. */
  datatype BestByName = BestByName(names: seq<string>, best: map<string, JsonProperty>)

  /** The bestByName dictionary after the properties in order: a name's entry is replaced only on a strictly higher priority. */
  function Dedup(ps: seq<JsonProperty>): BestByName {
    if ps == [] then BestByName([], map[])
    else
      var before := Dedup(ps[..|ps| - 1]);
      var p := ps[|ps| - 1];
      var name := p.Name();
      if name !in before.best then BestByName(before.names + [name], before.best[name := p])
      else if GetPriority(p) > GetPriority(before.best[name]) then before.(best := before.best[name := p])
      else before
  }

  /** The dictionary's values in first-seen name order, as the dictionary enumerates them. */
  function Values(d: BestByName): seq<JsonProperty>
    requires forall i :: 0 <= i < |d.names| ==> d.names[i] in d.best
  {
    seq(|d.names|, i requires 0 <= i < |d.names| => d.best[d.names[i]])
  }

  /** Some property of the list has the name. */
  predicate HasName(ps: seq<JsonProperty>, n: string) {
    exists i :: 0 <= i < |ps| && ps[i].Name() == n
  }

  /** The names are listed once each, and are exactly the dictionary's keys and the names of the properties. */
  lemma {:induction false} DedupNames(ps: seq<JsonProperty>)
    ensures forall i, j :: 0 <= i < j < |Dedup(ps).names| ==> Dedup(ps).names[i] != Dedup(ps).names[j]
    ensures forall n :: n in Dedup(ps).best <==> n in Dedup(ps).names
    ensures forall n :: n in Dedup(ps).best <==> HasName(ps, n)
  {
    if ps != [] {
      var m := |ps| - 1;
      var init := ps[..m];
      var p := ps[m];
      DedupNames(init);
      var before := Dedup(init);
      assert forall i :: 0 <= i < m ==> init[i] == ps[i];
      forall n
        ensures HasName(ps, n) <==> HasName(init, n) || n == p.Name()
      {
        if HasName(ps, n) && n != p.Name() {
          var i :| 0 <= i < |ps| && ps[i].Name() == n;
          assert init[i].Name() == n;
        }
        if HasName(init, n) {
          var i :| 0 <= i < |init| && init[i].Name() == n;
          assert ps[i].Name() == n;
        }
        assert ps[m].Name() == p.Name();
      }
      var d := Dedup(ps);
      if p.Name() !in before.best {
        assert d.names == before.names + [p.Name()];
        assert p.Name() !in before.names;
        assert d.best.Keys == before.best.Keys + {p.Name()};
      } else {
        assert d.names == before.names && d.best.Keys == before.best.Keys;
      }
    }
  }

  /** The property `ps[i]` is the one kept for its name: no earlier one is as good, no later one better. */
  predicate KeptFor(ps: seq<JsonProperty>, i: int)
    requires 0 <= i < |ps|
  {
    && (forall j :: 0 <= j < i && ps[j].Name() == ps[i].Name() ==> GetPriority(ps[j]) < GetPriority(ps[i]))
    && (forall j :: i < j < |ps| && ps[j].Name() == ps[i].Name() ==> GetPriority(ps[j]) <= GetPriority(ps[i]))
  }

  /**
   * The property kept for a name has the highest priority among the properties of that name,
   * and among several with that priority it is the first seen.
   */
  lemma {:induction false} DedupKeepsBest(ps: seq<JsonProperty>, n: string)
    requires n in Dedup(ps).best
    ensures exists i :: 0 <= i < |ps| && ps[i] == Dedup(ps).best[n] && ps[i].Name() == n && KeptFor(ps, i)
  {
    var m := |ps| - 1;
    var init := ps[..m];
    var p := ps[m];
    var before := Dedup(init);
    var d := Dedup(ps);
    assert forall i :: 0 <= i < m ==> init[i] == ps[i];
    if n == p.Name() && (n !in before.best || GetPriority(p) > GetPriority(before.best[n])) {
      assert d.best[n] == p;
      if n in before.best {
        DedupKeepsBest(init, n);
        var k :| 0 <= k < m && init[k] == before.best[n] && init[k].Name() == n && KeptFor(init, k);
        forall j | 0 <= j < m && ps[j].Name() == n
          ensures GetPriority(ps[j]) < GetPriority(p)
        {
          assert init[j].Name() == init[k].Name();
          if j < k {
            assert GetPriority(init[j]) < GetPriority(init[k]);
          } else if k < j {
            assert GetPriority(init[j]) <= GetPriority(init[k]);
          }
        }
      } else {
        DedupNames(init);
        assert !HasName(init, n);
        assert forall j :: 0 <= j < m ==> init[j].Name() != n;
      }
      assert KeptFor(ps, m);
    } else {
      assert n in before.best && d.best[n] == before.best[n];
      DedupKeepsBest(init, n);
      var k :| 0 <= k < m && init[k] == before.best[n] && init[k].Name() == n && KeptFor(init, k);
      assert ps[k] == init[k];
      assert KeptFor(ps, k) by {
        forall j | 0 <= j < k && ps[j].Name() == ps[k].Name()
          ensures GetPriority(ps[j]) < GetPriority(ps[k])
        {
          assert init[j] == ps[j];
        }
        forall j | k < j < |ps| && ps[j].Name() == ps[k].Name()
          ensures GetPriority(ps[j]) <= GetPriority(ps[k])
        {
          if j < m {
            assert init[j] == ps[j];
          }
        }
      }
    }
  }

  /** `x` is the property kept for its name among `ps`. */
  predicate IsKept(ps: seq<JsonProperty>, x: JsonProperty) {
    exists k :: 0 <= k < |ps| && ps[k] == x && KeptFor(ps, k)
  }

  /** The properties CreateProperties returns: the kept property of each name, in first-seen order. */
  function Resolved(ps: seq<JsonProperty>): seq<JsonProperty> {
    DedupNames(ps);
    Values(Dedup(ps))
  }

  /**
   * The resolved list names each name of the input exactly once, and each of its properties
   * is the input property kept for that name.
   */
  lemma ResolvedOnePerName(ps: seq<JsonProperty>)
    ensures forall i, j :: 0 <= i < j < |Resolved(ps)| ==> Resolved(ps)[i].Name() != Resolved(ps)[j].Name()
    ensures forall n :: HasName(ps, n) <==> HasName(Resolved(ps), n)
    ensures forall i :: 0 <= i < |Resolved(ps)| ==> IsKept(ps, Resolved(ps)[i])
  {
    DedupNames(ps);
    var d := Dedup(ps);
    var r := Resolved(ps);
    forall i | 0 <= i < |r|
      ensures r[i].Name() == d.names[i]
      ensures IsKept(ps, r[i])
    {
      assert r[i] == d.best[d.names[i]];
      DedupKeepsBest(ps, d.names[i]);
      var k :| 0 <= k < |ps| && ps[k] == d.best[d.names[i]] && ps[k].Name() == d.names[i] && KeptFor(ps, k);
      assert ps[k] == r[i];
    }
    forall n | HasName(ps, n)
      ensures HasName(r, n)
    {
      var i :| 0 <= i < |d.names| && d.names[i] == n;
      assert r[i].Name() == n;
    }
  }

  /**
   * CreateProperties: walks the properties once, keeping the best property per name in a
   * dictionary, and returns the dictionary's values.
   */
  method CreateProperties(properties: seq<JsonProperty>) returns (result: seq<JsonProperty>)
    ensures result == Resolved(properties)
  {
    var names: seq<string> := [];
    var bestByName: map<string, JsonProperty> := map[];
    var k := 0;
    while k < |properties|
      invariant 0 <= k <= |properties|
      invariant BestByName(names, bestByName) == Dedup(properties[..k])
      invariant forall n :: n in bestByName <==> n in names
    {
      assert properties[..k + 1][..k] == properties[..k];
      var property := properties[k];
      var name := property.Name();
      if name !in bestByName {
        bestByName := bestByName[name := property];
        names := names + [name];
      } else if GetPriority(property) > GetPriority(bestByName[name]) {
        bestByName := bestByName[name := property];
      }
      k := k + 1;
    }
    assert properties[..k] == properties;
    result := [];
    var i := 0;
    while i < |names|
      invariant 0 <= i <= |names|
      invariant |result| == i
      invariant forall j :: 0 <= j < i ==> result[j] == bestByName[names[j]]
    {
      result := result + [bestByName[names[i]]];
      i := i + 1;
    }
  }
}
