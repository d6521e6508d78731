/** The transfer archive: tasks written field by field, with bulk buffers sent beside
    the stream and matched by a running cursor.
    include/chimaera/network/serialize_defn.h; the stream is a sequence of values. */
module Archives {

  datatype Result<T> = Ok(value: T) | Err(error: Error)
  datatype Error = EndOfStream | NoEntry

  /** What a serialize function handles: a field, or a buffer with its flags. */
  datatype Item = Field(value: nat) | Bulk(flags: nat, data: nat, size: nat)

  /** What it asks for next, as a function of what it has handled so far: serialize
      functions branch on fields they have just read. */
  datatype Kind = Done | AField | ABulk(flags: nat)
  type Shape = seq<nat> -> Kind

  datatype Segment = Segment(pool: nat, method_: nat, addr: nat, dom: nat)
  datatype Entry = Entry(flags: nat, data: nat, size: nat)
  datatype Transfer = Transfer(tasks: seq<Segment>, bulk: seq<Entry>, md: seq<nat>)

  /** A task: where it is, where the task it copies is, the fields that every task
      sends, and what its own start and end functions send. */
  datatype Task = Task(addr: nat, retAddr: nat, pool: nat, node: nat, dom: nat, prio: nat, method_: nat,
                       flags: nat, period: nat, start: seq<Item>, end: seq<Item>)

  function Header(t: Task): seq<Item> {
    [Field(t.pool), Field(t.node), Field(t.dom), Field(t.prio), Field(t.method_), Field(t.flags), Field(t.period)]
  }

  const HEADER: nat := 7

  // ----------------------------------------------------------------- writing

  /** What an item leaves in the stream: its value, or its size. */
  function Token(x: Item): nat { if x.Field? then x.value else x.size }

  function Tokens(xs: seq<Item>): seq<nat> {
    seq(|xs|, i requires 0 <= i < |xs| => Token(xs[i]))
  }

  /** Non-empty buffers get a transfer entry. */
  function EntryOf(x: Item): seq<Entry> {
    if x.Bulk? && x.size != 0 then [Entry(x.flags, x.data, x.size)] else []
  }

  function Entries(xs: seq<Item>): seq<Entry> {
    if xs == [] then [] else EntryOf(xs[0]) + Entries(xs[1..])
  }

  function Written(x: Transfer, seg: Segment, xs: seq<Item>): Transfer {
    Transfer(x.tasks + [seg], x.bulk + Entries(xs), x.md + Tokens(xs))
  }

  function StartItems(t: Task): seq<Item> { Header(t) + t.start }

  function SaveStart(x: Transfer, t: Task): Transfer {
    Written(x, Segment(t.pool, t.method_, t.addr, t.dom), StartItems(t))
  }

  /** The return path sends no header and names the task to complete. */
  function SaveEnd(x: Transfer, t: Task): Transfer {
    Written(x, Segment(t.pool, t.method_, t.retAddr, 0), t.end)
  }

  const EMPTY: Transfer := Transfer([], [], [])

  /** What an archive holds after tasks were written one after the other. */
  function SavedStarts(ts: seq<Task>): Transfer {
    if ts == [] then EMPTY else SaveStart(SavedStarts(ts[..|ts| - 1]), ts[|ts| - 1])
  }

  function SavedEnds(ts: seq<Task>): Transfer {
    if ts == [] then EMPTY else SaveEnd(SavedEnds(ts[..|ts| - 1]), ts[|ts| - 1])
  }

  // ----------------------------------------------------------------- reading

  /** What is read: the items, the rest of the stream, the entries, the cursor. */
  datatype Loaded = Loaded(items: seq<Item>, md: seq<nat>, bulk: seq<Entry>, off: nat)

  /** Where the k-th buffer of the reading task is. A starting task has none yet: it
      takes the buffer of the entry. A returning task keeps its own, and the entry
      is pointed at it. */
  datatype Owner = Starting | Returning(own: nat -> nat)

  function Prepend(x: Item, r: Result<Loaded>): Result<Loaded> {
    if r.Err? then r else Ok(r.value.(items := [x] + r.value.items))
  }

  function Bind(who: Owner, k: nat, e: Entry): Entry {
    if who.Starting? then e else e.(data := who.own(k))
  }

  /** A buffer that is not sent: nothing for a starting task, its own for a returning one. */
  function Unbound(who: Owner, k: nat): nat { if who.Starting? then 0 else who.own(k) }

  function Load(shape: Shape, who: Owner, seen: seq<nat>, k: nat, md: seq<nat>, bulk: seq<Entry>,
                off: nat): Result<Loaded>
    decreases |md|
  {
    match shape(seen)
    case Done => Ok(Loaded([], md, bulk, off))
    case AField =>
      if md == [] then Err(EndOfStream)
      else Prepend(Field(md[0]), Load(shape, who, seen + [md[0]], k, md[1..], bulk, off))
    case ABulk(flags) =>
      if md == [] then Err(EndOfStream)
      else if md[0] == 0 then
        Prepend(Bulk(flags, Unbound(who, k), 0), Load(shape, who, seen + [md[0]], k + 1, md[1..], bulk, off))
      else if off >= |bulk| then Err(NoEntry)
      else
        var e := Bind(who, k, bulk[off]);
        Prepend(Bulk(flags, e.data, md[0]),
                Load(shape, who, seen + [md[0]], k + 1, md[1..], bulk[off := e], off + 1))
  }

  predicate HasHeader(ys: seq<Item>) { |ys| >= HEADER && forall i :: 0 <= i < HEADER ==> ys[i].Field? }

  /** The task that a receiver makes of what it read: the header's fields in the order in
      which every task reads them, but the domain query of the segment, whose address is
      where to send the result. */
  function Rebuilt(seg: Segment, ys: seq<Item>, addr: nat): Task
    requires HasHeader(ys)
  {
    Task(addr, seg.addr, ys[0].value, ys[1].value, seg.dom, ys[3].value, ys[4].value, ys[5].value, ys[6].value,
         ys[HEADER..], [])
  }

  /** The header comes before what the task itself reads. */
  function WithHeader(shape: Shape): Shape {
    (seen: seq<nat>) => if |seen| < HEADER then AField else shape(seen[HEADER..])
  }

  // ---------------------------------------------------------- one task round

  /** The items are what a function of this shape handles. */
  predicate Conforms(shape: Shape, seen: seq<nat>, xs: seq<Item>)
    decreases |xs|
  {
    if xs == [] then shape(seen).Done?
    else
      && (match xs[0] case Field(_) => shape(seen).AField? case Bulk(flags, _, _) => shape(seen) == ABulk(flags))
      && Conforms(shape, seen + [Token(xs[0])], xs[1..])
  }

  /** The items as the receiver has them: same values, same sizes, other buffers. */
  function Received(xs: seq<Item>, who: Owner, k: nat, bulk: seq<Entry>, off: nat): seq<Item>
    requires off + |Entries(xs)| <= |bulk|
    decreases |xs|
  {
    if xs == [] then []
    else match xs[0]
      case Field(v) => [xs[0]] + Received(xs[1..], who, k, bulk, off)
      case Bulk(flags, data, size) =>
        if size == 0 then [Bulk(flags, Unbound(who, k), 0)] + Received(xs[1..], who, k + 1, bulk, off)
        else [Bulk(flags, Bind(who, k, bulk[off]).data, size)] + Received(xs[1..], who, k + 1, bulk, off + 1)
  }

  /** The entries after the task has been read. */
  function Bound(xs: seq<Item>, who: Owner, k: nat, bulk: seq<Entry>, off: nat): (r: seq<Entry>)
    requires off + |Entries(xs)| <= |bulk|
    ensures |r| == |bulk|
    decreases |xs|
  {
    if xs == [] then bulk
    else if xs[0].Field? then Bound(xs[1..], who, k, bulk, off)
    else if xs[0].size == 0 then Bound(xs[1..], who, k + 1, bulk, off)
    else Bound(xs[1..], who, k + 1, bulk[off := Bind(who, k, bulk[off])], off + 1)
  }

  lemma {:induction false} ReceivedFrame(xs: seq<Item>, who: Owner, k: nat, bulk: seq<Entry>, other: seq<Entry>,
                                         off: nat)
    requires |bulk| == |other| && off + |Entries(xs)| <= |bulk| && forall i :: off <= i < |bulk| ==> bulk[i] == other[i]
    ensures Received(xs, who, k, bulk, off) == Received(xs, who, k, other, off)
    decreases |xs|
  {
    if xs == [] {
    } else {
      ReceivedFrame(xs[1..], who, if xs[0].Bulk? then k + 1 else k, bulk, other, off + |EntryOf(xs[0])|);
    }
  }

  /** Reading undoes writing: the items come back, the tokens and entries that were
      written for them are consumed, and no others. */
  lemma {:induction false} LoadInverts(shape: Shape, who: Owner, seen: seq<nat>, k: nat, xs: seq<Item>,
                                       rest: seq<nat>, bulk: seq<Entry>, off: nat)
    requires Conforms(shape, seen, xs) && off + |Entries(xs)| <= |bulk|
    ensures Load(shape, who, seen, k, Tokens(xs) + rest, bulk, off)
            == Ok(Loaded(Received(xs, who, k, bulk, off), rest, Bound(xs, who, k, bulk, off), off + |Entries(xs)|))
    decreases |xs|
  {
    var md := Tokens(xs) + rest;
    assert xs == [] ==> md == rest;
    assert xs != [] ==> md != [] && md[0] == Token(xs[0]) && md[1..] == Tokens(xs[1..]) + rest;
    hide Tokens;
    if xs == [] {
    } else {
      var seen1 := seen + [Token(xs[0])];
      match xs[0]
      case Field(v) => LoadInverts(shape, who, seen1, k, xs[1..], rest, bulk, off);
      case Bulk(flags, data, size) =>
        if size == 0 {
          LoadInverts(shape, who, seen1, k + 1, xs[1..], rest, bulk, off);
        } else {
          var bulk1 := bulk[off := Bind(who, k, bulk[off])];
          LoadInverts(shape, who, seen1, k + 1, xs[1..], rest, bulk1, off + 1);
          ReceivedFrame(xs[1..], who, k + 1, bulk1, bulk, off + 1);
        }
    }
  }
}
