/** The domain map of include/chimaera/network/rpc.h: which sub-domains make up
    each domain of a pool, and the operations that grow and shrink it. */
module Domains {

  /** 32-bit identifiers; arithmetic that the program does in 32 bits is reduced explicitly. */
  const U32: int := 0x1_0000_0000
  type u32 = x: int | 0 <= x < 0x1_0000_0000

  datatype PoolId = PoolId(node: u32, unique: nat)

  const PHYSICAL_NODE: u32 := 0
  const CONTAINER_SET: u32 := 1
  const LOCAL_CONTAINERS: u32 := 3

  datatype SubDomainId = SubDomainId(major: u32, minor: u32) {
    predicate IsPhysical() { major == PHYSICAL_NODE }
  }

  datatype DomainId = DomainId(scope: PoolId, sub: SubDomainId)

  datatype IdRange = IdRange(group: u32, off: u32, count: u32)

  datatype UpdateOp = Contract | Expand
  datatype UpdateInfo = UpdateInfo(domain: DomainId, op: UpdateOp, range: IdRange)

  /** One entry of the map. The program keeps the ids twice, as a list and as a
      set, and their number a third time. */
  datatype Entry = Entry(size: nat, idSet: set<SubDomainId>, ids: seq<SubDomainId>)

  const EMPTY_ENTRY: Entry := Entry(0, {}, [])

  type DomainMap = map<DomainId, Entry>

  /** What the three copies owe each other. */
  ghost predicate EntryOk(e: Entry) {
    && e.size == |e.ids|
    && (forall id :: id in e.idSet <==> id in e.ids)
    && (forall i, j :: 0 <= i < j < |e.ids| ==> e.ids[i] != e.ids[j])
  }

  ghost predicate MapOk(m: DomainMap) {
    forall d :: d in m ==> EntryOk(m[d])
  }

  function Lookup(m: DomainMap, d: DomainId): Entry {
    if d in m then m[d] else EMPTY_ENTRY
  }

  /** The end of a range is computed in 32 bits, so it can wrap below its start. */
  function Stop(r: IdRange): u32 {
    (r.off + r.count) % U32
  }

  // ---------------------------------------------------------------- Expand

  function Added(e: Entry, id: SubDomainId): Entry {
    if id in e.idSet then e else Entry(e.size + 1, e.idSet + {id}, e.ids + [id])
  }

  function ExpandFrom(e: Entry, group: u32, i: nat, stop: u32): Entry
    decreases stop - i
  {
    if i >= stop then e
    else
      ExpandFrom(Added(e, SubDomainId(group, i)), group, i + 1, stop)
  }

  function Expanded(e: Entry, r: IdRange): Entry {
    ExpandFrom(e, r.group, r.off, Stop(r))
  }

  method ExpandEntry(e: Entry, r: IdRange) returns (res: Entry)
    ensures res == Expanded(e, r)
  {
    var size, idSet, ids := e.size, e.idSet, e.ids;
    var i := r.off;
    while i < Stop(r)
      invariant r.off <= i && (r.off <= Stop(r) ==> i <= Stop(r))
      invariant ExpandFrom(Entry(size, idSet, ids), r.group, i, Stop(r)) == Expanded(e, r)
    {
      var id := SubDomainId(r.group, i);
      if id !in idSet {
        idSet := idSet + {id};
        ids := ids + [id];
        size := size + 1;
      }
      i := i + 1;
    }
    res := Entry(size, idSet, ids);
  }

  /** Expanding keeps the three copies in step, keeps the old ids where they were,
      and the ids afterwards are the old ones and those of the range. */
  lemma {:induction false} ExpandFromOk(e: Entry, group: u32, i: nat, stop: u32)
    requires EntryOk(e)
    ensures var r := ExpandFrom(e, group, i, stop);
            && EntryOk(r)
            && e.ids <= r.ids
            && forall id :: id in r.ids <==> id in e.ids || (id.major == group && i <= id.minor < stop)
    decreases stop - i
  {
    if i >= stop {
    } else {
      var id := SubDomainId(group, i);
      hide EntryOk;
      AddedOk(e, id);
      ExpandFromOk(Added(e, id), group, i + 1, stop);
    }
  }

  lemma {:induction false} AddedOk(e: Entry, id: SubDomainId)
    requires EntryOk(e)
    ensures EntryOk(Added(e, id)) && e.ids <= Added(e, id).ids
    ensures forall x :: x in Added(e, id).ids <==> x in e.ids || x == id
  {
    var r := Added(e, id);
    forall x ensures x in r.ids <==> x in e.ids || x == id {
      if x in e.ids { assert id in e.idSet || r.ids[..|e.ids|] == e.ids; }
      if x == id { assert id in e.idSet || r.ids[|e.ids|] == id; }
    }
  }

  lemma {:induction false} ExpandFromFresh(e: Entry, group: u32, i: nat, stop: u32)
    requires i <= stop
    requires EntryOk(e) && forall id :: id in e.ids && id.major == group ==> id.minor < i
    ensures ExpandFrom(e, group, i, stop).ids
         == e.ids + seq(stop - i, k requires 0 <= k < stop - i => SubDomainId(group, i + k))
    decreases stop - i
  {
    if i < stop {
      var id := SubDomainId(group, i);
      var e1 := Entry(e.size + 1, e.idSet + {id}, e.ids + [id]);
      assert id !in e.ids;
      ExpandFromFresh(e1, group, i + 1, stop);
      var a := seq(stop - i, k requires 0 <= k < stop - i => SubDomainId(group, i + k));
      var b := seq(stop - i - 1, k requires 0 <= k < stop - i - 1 => SubDomainId(group, i + 1 + k));
      assert a == [id] + b;
      assert e.ids + a == e1.ids + b;
    } else {
      assert e.ids + [] == e.ids;
    }
  }

  // -------------------------------------------------------------- Contract

  function Kept(ids: seq<SubDomainId>, r: IdRange): seq<SubDomainId> {
    if ids == [] then []
    else (if ids[0].major == r.group && !(r.off <= ids[0].minor < Stop(r)) then [ids[0]] else [])
         + Kept(ids[1..], r)
  }

  function Erased(ids: seq<SubDomainId>, r: IdRange): set<SubDomainId> {
    set id | id in ids && id.major == r.group && r.off <= id.minor < Stop(r)
  }

  function Contracted(e: Entry, r: IdRange): Entry {
    Entry(e.size, e.idSet - Erased(e.ids, r), Kept(e.ids, r))
  }

  lemma {:induction false} KeptAppend(a: seq<SubDomainId>, b: seq<SubDomainId>, r: IdRange)
    ensures Kept(a + b, r) == Kept(a, r) + Kept(b, r)
  {
    if a == [] {
      assert a + b == b;
    } else {
      assert (a + b)[0] == a[0] && (a + b)[1..] == a[1..] + b;
      KeptAppend(a[1..], b, r);
    }
  }

  method ContractEntry(e: Entry, r: IdRange) returns (res: Entry)
    ensures res == Contracted(e, r)
  {
    var idSet, ids := e.idSet, [];
    for k := 0 to |e.ids|
      invariant ids == Kept(e.ids[..k], r)
      invariant idSet == e.idSet - Erased(e.ids[..k], r)
    {
      var id := e.ids[k];
      assert e.ids[..k + 1] == e.ids[..k] + [id];
      KeptAppend(e.ids[..k], [id], r);
      if id.major == r.group {
        if r.off <= id.minor < Stop(r) {
          idSet := idSet - {id};
        } else {
          ids := ids + [id];
        }
      }
    }
    assert e.ids[..|e.ids|] == e.ids;
    res := Entry(e.size, idSet, ids);
  }

  lemma {:induction false} KeptAll(ids: seq<SubDomainId>, r: IdRange)
    ensures |Kept(ids, r)| <= |ids|
    ensures |Kept(ids, r)| == |ids| <==>
            forall id :: id in ids ==> id.major == r.group && !(r.off <= id.minor < Stop(r))
    ensures |Kept(ids, r)| == |ids| ==> Kept(ids, r) == ids
  {
    if ids == [] {
    } else {
      KeptAll(ids[1..], r);
      assert ids == [ids[0]] + ids[1..];
    }
  }

  /** Of the ids only those of the group outside the range stay, in their order; of the
      set only the listed ids of the group in the range go. */
  lemma {:induction false} ContractedContents(e: Entry, r: IdRange)
    ensures var c := Contracted(e, r);
            && c.size == e.size
            && (forall id :: id in c.ids <==> id in e.ids && id.major == r.group && !(r.off <= id.minor < Stop(r)))
            && (forall id :: id in c.idSet <==>
                  id in e.idSet && !(id in e.ids && id.major == r.group && r.off <= id.minor < Stop(r)))
            && multiset(c.ids) <= multiset(e.ids)
    decreases |e.ids|
  {
    if e.ids == [] {
    } else {
      ContractedContents(e.(ids := e.ids[1..]), r);
      assert e.ids == [e.ids[0]] + e.ids[1..];
    }
  }

  /** What stays, stays in order. */
  lemma {:induction false} KeptInOrder(ids: seq<SubDomainId>, r: IdRange, i: nat, j: nat) returns (a: nat, b: nat)
    requires i < j < |Kept(ids, r)|
    ensures a < b < |ids| && ids[a] == Kept(ids, r)[i] && ids[b] == Kept(ids, r)[j]
  {
    var first := ids[0].major == r.group && !(r.off <= ids[0].minor < Stop(r));
    if first && i == 0 {
      b := KeptAt(ids[1..], r, j - 1);
      a, b := 0, b + 1;
    } else if first {
      a, b := KeptInOrder(ids[1..], r, i - 1, j - 1);
      a, b := a + 1, b + 1;
    } else {
      a, b := KeptInOrder(ids[1..], r, i, j);
      a, b := a + 1, b + 1;
    }
  }

  lemma {:induction false} KeptAt(ids: seq<SubDomainId>, r: IdRange, j: nat) returns (b: nat)
    requires j < |Kept(ids, r)|
    ensures b < |ids| && ids[b] == Kept(ids, r)[j]
  {
    var first := ids[0].major == r.group && !(r.off <= ids[0].minor < Stop(r));
    if first && j == 0 {
      b := 0;
    } else {
      b := KeptAt(ids[1..], r, if first then j - 1 else j);
      b := b + 1;
    }
  }

  /** Contracting never lowers the stored size and forgets the ids of other groups
      without erasing them from the set: it keeps an entry sound exactly when it
      has nothing to drop. */
  lemma {:induction false} ContractBreaksUnlessIdle(e: Entry, r: IdRange)
    requires EntryOk(e)
    ensures EntryOk(Contracted(e, r)) <==>
            forall id :: id in e.ids ==> id.major == r.group && !(r.off <= id.minor < Stop(r))
  {
    KeptAll(e.ids, r);
  }

  // ---------------------------------------------------------- UpdateDomains

  function Applied(m: DomainMap, op: UpdateInfo): DomainMap {
    var e := Lookup(m, op.domain);
    m[op.domain := match op.op case Expand => Expanded(e, op.range) case Contract => Contracted(e, op.range)]
  }

  function AppliedAll(m: DomainMap, ops: seq<UpdateInfo>): DomainMap
    decreases |ops|
  {
    if ops == [] then m else AppliedAll(Applied(m, ops[0]), ops[1..])
  }

  lemma {:induction false} AppliedAllAppend(m: DomainMap, a: seq<UpdateInfo>, b: seq<UpdateInfo>)
    ensures AppliedAll(m, a + b) == AppliedAll(AppliedAll(m, a), b)
    decreases |a|
  {
    if a == [] {
      assert a + b == b;
    } else {
      assert (a + b)[0] == a[0] && (a + b)[1..] == a[1..] + b;
      AppliedAllAppend(Applied(m, a[0]), a[1..], b);
    }
  }

  /** Every run of expansions keeps every entry of the map sound. */
  lemma {:induction false} ExpandOnlyRunsOk(m: DomainMap, ops: seq<UpdateInfo>)
    requires MapOk(m)
    requires forall k :: 0 <= k < |ops| ==> ops[k].op.Expand?
    ensures MapOk(AppliedAll(m, ops))
    decreases |ops|
  {
    if ops == [] {
    } else {
      var e := Lookup(m, ops[0].domain);
      ExpandFromOk(e, ops[0].range.group, ops[0].range.off, Stop(ops[0].range));
      ExpandOnlyRunsOk(Applied(m, ops[0]), ops[1..]);
    }
  }
}
