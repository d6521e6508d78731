/** The two archives as the objects they are. */
module ArchiveObjects {
  import opened Archives
  import opened ArchiveBatches

  lemma {:induction false} ItemsAppend(xs: seq<Item>, x: Item)
    ensures Tokens(xs + [x]) == Tokens(xs) + [Token(x)]
    ensures Entries(xs + [x]) == Entries(xs) + EntryOf(x)
  {
    ItemsConcat(xs, [x]);
    assert [x][1..] == [];
    assert Entries([x]) == EntryOf(x) + [] == EntryOf(x);
  }

  class OutputArchive {
    var tasks: seq<Segment>
    var bulk: seq<Entry>
    var stream: seq<nat>

    function Value(): Transfer
      reads this
    {
      Transfer(tasks, bulk, stream)
    }

    constructor ()
      ensures Value() == EMPTY
    {
      tasks, bulk, stream := [], [], [];
    }

    /** Write the size, and an entry unless it is zero. */
    method WriteBulk(flags: nat, data: nat, size: nat)
      modifies this`bulk, this`stream
      ensures stream == old(stream) + [size]
      ensures bulk == old(bulk) + EntryOf(Bulk(flags, data, size))
    {
      stream := stream + [size];
      if size == 0 {
        return;
      }
      bulk := bulk + [Entry(flags, data, size)];
    }

    method WriteItems(xs: seq<Item>)
      modifies this`bulk, this`stream
      ensures stream == old(stream) + Tokens(xs) && bulk == old(bulk) + Entries(xs)
    {
      for i := 0 to |xs|
        invariant stream == old(stream) + Tokens(xs[..i]) && bulk == old(bulk) + Entries(xs[..i])
      {
        hide Tokens, Entries;
        assert xs[..i + 1] == xs[..i] + [xs[i]];
        ItemsAppend(xs[..i], xs[i]);
        assert old(stream) + (Tokens(xs[..i]) + [Token(xs[i])]) == stream + [Token(xs[i])];
        assert old(bulk) + (Entries(xs[..i]) + EntryOf(xs[i])) == bulk + EntryOf(xs[i]);
        match xs[i] {
          case Field(v) => stream := stream + [v];
          case Bulk(flags, data, size) => WriteBulk(flags, data, size);
        }
      }
      assert xs[..|xs|] == xs;
    }

    /** The header, the segment, then what the task itself sends. */
    method Start(t: Task)
      modifies this
      ensures Value() == SaveStart(old(Value()), t)
    {
      WriteItems(Header(t));
      tasks := tasks + [Segment(t.pool, t.method_, t.addr, t.dom)];
      WriteItems(t.start);
      StartSplits(t);
    }

    method End(t: Task)
      modifies this
      ensures Value() == SaveEnd(old(Value()), t)
    {
      tasks := tasks + [Segment(t.pool, t.method_, t.retAddr, 0)];
      WriteItems(t.end);
    }

    /** The tasks of a batch, as ClientSubmit writes them. */
    method StartBatch(ts: seq<Task>)
      requires Value() == EMPTY
      modifies this
      ensures Value() == SavedStarts(ts)
    {
      for i := 0 to |ts|
        invariant Value() == SavedStarts(ts[..i])
      {
        assert ts[..i + 1][..i] == ts[..i];
        Start(ts[i]);
      }
      assert ts[..|ts|] == ts;
    }

    /** The tasks of a batch, as ServerComplete writes them. */
    method EndBatch(ts: seq<Task>)
      requires Value() == EMPTY
      modifies this
      ensures Value() == SavedEnds(ts)
    {
      for i := 0 to |ts|
        invariant Value() == SavedEnds(ts[..i])
      {
        assert ts[..i + 1][..i] == ts[..i];
        End(ts[i]);
      }
      assert ts[..|ts|] == ts;
    }
  }

  lemma {:induction false} ItemsConcat(xs: seq<Item>, ys: seq<Item>)
    ensures Tokens(xs + ys) == Tokens(xs) + Tokens(ys) && Entries(xs + ys) == Entries(xs) + Entries(ys)
  {
    assert Tokens(xs + ys) == Tokens(xs) + Tokens(ys);
    hide Tokens;
    if xs == [] {
      assert xs + ys == ys && [] + Entries(ys) == Entries(ys);
    } else {
      assert (xs + ys)[0] == xs[0] && (xs + ys)[1..] == xs[1..] + ys;
      ItemsConcat(xs[1..], ys);
      var e := EntryOf(xs[0]);
      assert e + (Entries(xs[1..]) + Entries(ys)) == (e + Entries(xs[1..])) + Entries(ys);
    }
  }

  lemma {:induction false} StartSplits(t: Task)
    ensures Tokens(StartItems(t)) == Tokens(Header(t)) + Tokens(t.start)
    ensures Entries(StartItems(t)) == Entries(Header(t)) + Entries(t.start)
  {
    ItemsConcat(Header(t), t.start);
  }

  // ----------------------------------------------------------------- reading

  ghost function PrependAll(xs: seq<Item>, r: Result<Loaded>): Result<Loaded> {
    if r.Err? then r else Ok(r.value.(items := xs + r.value.items))
  }

  lemma {:induction false} PrependNone(r: Result<Loaded>)
    ensures PrependAll([], r) == r
  {
    if r.Ok? { assert [] + r.value.items == r.value.items; }
  }

  lemma {:induction false} PrependStep(xs: seq<Item>, x: Item, r: Result<Loaded>)
    ensures PrependAll(xs, Prepend(x, r)) == PrependAll(xs + [x], r)
  {
    if r.Ok? { assert xs + ([x] + r.value.items) == xs + [x] + r.value.items; }
  }

  class InputArchive {
    var bulk: seq<Entry>
    var stream: seq<nat>
    var off: nat

    constructor (x: Transfer)
      ensures bulk == x.bulk && stream == x.md && off == 0
    {
      bulk, stream, off := x.bulk, x.md, 0;
    }

    /** One buffer, size first. The cursor moves past its entry, which gives the
        buffer or is pointed at it. */
    method ReadBulk(flags: nat, who: Owner, k: nat) returns (r: Result<Item>)
      modifies this
      ensures old(stream) == [] ==> r == Err(EndOfStream)
      ensures old(stream) != [] && old(stream)[0] == 0 ==>
                r == Ok(Bulk(flags, Unbound(who, k), 0)) && stream == old(stream)[1..] && bulk == old(bulk)
                    && off == old(off)
      ensures old(stream) != [] && old(stream)[0] != 0 && old(off) >= |old(bulk)| ==> r == Err(NoEntry)
      ensures old(stream) != [] && old(stream)[0] != 0 && old(off) < |old(bulk)| ==>
                var e := Bind(who, k, old(bulk)[old(off)]);
                && r == Ok(Bulk(flags, e.data, old(stream)[0])) && stream == old(stream)[1..]
                && bulk == old(bulk)[old(off) := e] && off == old(off) + 1
    {
      if stream == [] {
        return Err(EndOfStream);
      }
      var size := stream[0];
      stream := stream[1..];
      if size == 0 {
        return Ok(Bulk(flags, Unbound(who, k), 0));
      }
      if off >= |bulk| {
        return Err(NoEntry);
      }
      var at := off;
      off := off + 1;
      if who.Returning? {
        bulk := bulk[at := bulk[at].(data := who.own(k))];
      }
      r := Ok(Bulk(flags, bulk[at].data, size));
    }

    /** Everything that a serialize function of this shape reads. */
    method ReadTask(shape: Shape, who: Owner) returns (r: Result<seq<Item>>)
      modifies this
      ensures var l := Load(shape, who, [], 0, old(stream), old(bulk), old(off));
              if l.Err? then r == Err(l.error)
              else r == Ok(l.value.items) && stream == l.value.md && bulk == l.value.bulk && off == l.value.off
    {
      var items: seq<Item> := [];
      var seen: seq<nat> := [];
      var k := 0;
      ghost var all := Load(shape, who, [], 0, stream, bulk, off);
      PrependNone(all);
      while shape(seen) != Done
        invariant PrependAll(items, Load(shape, who, seen, k, stream, bulk, off)) == all
        decreases |stream|
      {
        if stream == [] {
          return Err(EndOfStream);
        }
        var token := stream[0];
        var x;
        if shape(seen).AField? {
          stream := stream[1..];
          x := Field(token);
        } else {
          var b := ReadBulk(shape(seen).flags, who, k);
          if b.Err? {
            return Err(b.error);
          }
          x := b.value;
          k := k + 1;
        }
        seen := seen + [token];
        PrependStep(items, x, Load(shape, who, seen, k, stream, bulk, off));
        items := items + [x];
      }
      assert items + [] == items;
      r := Ok(items);
    }

    /** The tasks of a message, in segment order. */
    method ReadBatch(segs: seq<Segment>, shapes: Shapes, who: nat -> Owner) returns (r: Result<seq<seq<Item>>>)
      modifies this
      ensures var l := LoadAll(shapes, who, segs, 0, old(stream), old(bulk), old(off));
              if l.Err? then r == Err(l.error)
              else r == Ok(l.value.tasks) && stream == l.value.md && bulk == l.value.bulk && off == l.value.off
    {
      hide Load;
      var read: seq<seq<Item>> := [];
      ghost var all := LoadAll(shapes, who, segs, 0, stream, bulk, off);
      BatchNone(all);
      for j := 0 to |segs|
        invariant PrependTasks(read, LoadAll(shapes, who, segs, j, stream, bulk, off)) == all
      {
        BatchStep(read, shapes, who, segs, j, stream, bulk, off);
        var items := ReadTask(shapes(segs[j].pool, segs[j].method_), who(j));
        if items.Err? {
          return Err(items.error);
        }
        read := read + [items.value];
      }
      assert read + [] == read;
      r := Ok(read);
    }
  }

  ghost function PrependTasks(xs: seq<seq<Item>>, r: Result<Batch>): Result<Batch> {
    if r.Err? then r else Ok(r.value.(tasks := xs + r.value.tasks))
  }

  lemma {:induction false} BatchNone(r: Result<Batch>)
    ensures PrependTasks([], r) == r
  {
    if r.Ok? { assert [] + r.value.tasks == r.value.tasks; }
  }

  lemma {:induction false} BatchStep(xs: seq<seq<Item>>, shapes: Shapes, who: nat -> Owner, segs: seq<Segment>, j: nat,
                  md: seq<nat>, bulk: seq<Entry>, off: nat)
    requires j < |segs|
    ensures var l := Load(shapes(segs[j].pool, segs[j].method_), who(j), [], 0, md, bulk, off);
            var all := PrependTasks(xs, LoadAll(shapes, who, segs, j, md, bulk, off));
            if l.Err? then all == Err(l.error)
            else all == PrependTasks(xs + [l.value.items],
                                     LoadAll(shapes, who, segs, j + 1, l.value.md, l.value.bulk, l.value.off))
  {
    hide Load;
    var l := Load(shapes(segs[j].pool, segs[j].method_), who(j), [], 0, md, bulk, off);
    if l.Ok? {
      var rest := LoadAll(shapes, who, segs, j + 1, l.value.md, l.value.bulk, l.value.off);
      if rest.Ok? {
        assert xs + ([l.value.items] + rest.value.tasks) == (xs + [l.value.items]) + rest.value.tasks;
      }
    }
  }
}
