/** The register state of a logical ring context: a byte-coded layout is expanded into the load-register commands the
    engine reads back. */
module LrcLayout {
  import opened Basics

  const WORD: nat := 0x1_0000_0000

  // MI_BATCH_BUFFER_END, and the opcode of MI_LOAD_REGISTER_IMM with its posted bit.
  const BATCH_END: nat := 0x0500_0000
  const LRI: nat := 0x1100_0000
  const POSTED: nat := 0x1000

  // --------------------------------------------------------------------------------------------------------------
  // What a layout says.

  /** Dwords to leave alone, or registers to load (their offsets, in dwords, from the engine's base). */
  datatype Item = Skip(dwords: nat) | Load(posted: bool, offsets: seq<nat>)

  /** Seven more bits of an offset. */
  function Shift7(acc: nat, v: nat): nat {
    (acc * 128 + v % 128) % WORD
  }

  predicate OffsetOk(data: seq<nat>, i: nat)
    decreases |data| - i
  {
    i < |data| && (data[i] < 128 || OffsetOk(data, i + 1))
  }

  function OffsetNext(data: seq<nat>, i: nat): (j: nat)
    requires OffsetOk(data, i)
    ensures i < j <= |data|
    decreases |data| - i
  {
    if data[i] < 128 then i + 1 else OffsetNext(data, i + 1)
  }

  function OffsetValue(data: seq<nat>, i: nat, acc: nat): nat
    requires OffsetOk(data, i)
    decreases |data| - i
  {
    if data[i] < 128 then Shift7(acc, data[i]) else OffsetValue(data, i + 1, Shift7(acc, data[i]))
  }

  predicate OffsetsOk(data: seq<nat>, i: nat, count: nat)
    decreases count
  {
    i <= |data| && (count == 0 || (OffsetOk(data, i) && OffsetsOk(data, OffsetNext(data, i), count - 1)))
  }

  function OffsetsNext(data: seq<nat>, i: nat, count: nat): (j: nat)
    requires OffsetsOk(data, i, count)
    ensures i <= j <= |data| && (count > 0 ==> i < j)
    decreases count
  {
    if count == 0 then i else OffsetsNext(data, OffsetNext(data, i), count - 1)
  }

  function Offsets(data: seq<nat>, i: nat, count: nat): (os: seq<nat>)
    requires OffsetsOk(data, i, count)
    ensures |os| == count
    decreases count
  {
    if count == 0 then [] else [OffsetValue(data, i, 0)] + Offsets(data, OffsetNext(data, i), count - 1)
  }

  /** Well formed: ends with a zero byte, every load has its registers and at least one. */
  predicate LayoutOk(data: seq<nat>, i: nat)
    decreases |data| - i
  {
    i < |data| &&
    if data[i] == 0 then true
    else if data[i] >= 128 then LayoutOk(data, i + 1)
    else data[i] % 64 > 0 && OffsetsOk(data, i + 1, data[i] % 64) && LayoutOk(data, OffsetsNext(data, i + 1, data[i] % 64))
  }

  function Items(data: seq<nat>, i: nat): seq<Item>
    requires LayoutOk(data, i)
    decreases |data| - i
  {
    if data[i] == 0 then []
    else if data[i] >= 128 then [Skip(data[i] % 128)] + Items(data, i + 1)
    else
      [Load(data[i] / 64 % 2 == 1, Offsets(data, i + 1, data[i] % 64))]
      + Items(data, OffsetsNext(data, i + 1, data[i] % 64))
  }

  // --------------------------------------------------------------------------------------------------------------
  // What is written, dword by dword; nothing where the buffer keeps its value.

  function Header(posted: bool, count: nat): nat {
    (LRI + 2 * count + WORD - 1) % WORD + (if posted then POSTED else 0)
  }

  function Address(base: nat, offset: nat): nat {
    (base + offset * 4) % WORD
  }

  function Registers(offsets: seq<nat>, base: nat): (cells: seq<Option<nat>>)
    ensures |cells| == 2 * |offsets|
  {
    if offsets == [] then [] else [Some(Address(base, offsets[0])), None] + Registers(offsets[1..], base)
  }

  function Cells(item: Item, base: nat): seq<Option<nat>> {
    match item
    case Skip(n) => seq(n, _ => None)
    case Load(posted, offsets) => [Some(Header(posted, |offsets|))] + Registers(offsets, base)
  }

  function Expand(items: seq<Item>, base: nat): seq<Option<nat>> {
    if items == [] then [] else Cells(items[0], base) + Expand(items[1..], base)
  }

  /** The buffer `before` with `cells` written from `at` on. */
  ghost predicate Written(before: seq<nat>, after: seq<nat>, at: nat, cells: seq<Option<nat>>) {
    && |before| == |after| && at + |cells| <= |after|
    && forall i | 0 <= i < |after| ::
         after[i] == if at <= i < at + |cells| && cells[i - at].Some? then cells[i - at].value else before[i]
  }

  lemma WrittenThen(a: seq<nat>, b: seq<nat>, c: seq<nat>, at: nat, xs: seq<Option<nat>>, ys: seq<Option<nat>>)
    requires Written(a, b, at, xs) && Written(b, c, at + |xs|, ys)
    ensures Written(a, c, at, xs + ys)
  {
  }

  lemma WrittenOne(a: seq<nat>, at: nat, v: nat)
    requires at < |a|
    ensures Written(a, a[at := v], at, [Some(v)])
  {
  }

  lemma WrittenGap(a: seq<nat>, at: nat, n: nat)
    requires at + n <= |a|
    ensures Written(a, a, at, seq(n, _ => None))
  {
  }

  lemma ExpandOne(done: seq<Option<nat>>, items: seq<Item>, base: nat)
    requires items != []
    ensures done + Expand(items, base) == (done + Cells(items[0], base)) + Expand(items[1..], base)
  {
  }

  lemma RegistersOne(done: seq<Option<nat>>, offsets: seq<nat>, base: nat)
    requires offsets != []
    ensures done + Registers(offsets, base)
         == (done + [Some(Address(base, offsets[0])), None]) + Registers(offsets[1..], base)
  {
  }

  // --------------------------------------------------------------------------------------------------------------
  // Expanding a layout.

  predicate Bytes(data: seq<nat>) {
    forall i | 0 <= i < |data| :: data[i] < 256
  }

  method ReadOffset(data: seq<nat>, start: nat) returns (offset: nat, i: nat)
    requires OffsetOk(data, start)
    ensures i == OffsetNext(data, start) && offset == OffsetValue(data, start, 0)
  {
    offset, i := 0, start;
    while true
      invariant OffsetOk(data, i)
      invariant OffsetNext(data, i) == OffsetNext(data, start)
      invariant OffsetValue(data, i, offset) == OffsetValue(data, start, 0)
      decreases |data| - i
    {
      var v := data[i];
      i := i + 1;
      offset := (offset * 128 + v % 128) % WORD;
      if v < 128 {
        return;
      }
    }
  }

  method PutRegister(regs: array<nat>, at: nat, address: nat)
    requires at + 2 <= regs.Length
    modifies regs
    ensures Written(old(regs[..]), regs[..], at, [Some(address), None])
  {
    regs[at] := address;
  }

  /** The register addresses of one command, in every other dword. */
  method PutRegisters(regs: array<nat>, at: nat, data: seq<nat>, start: nat, base: nat, count: nat)
    returns (r: nat, i: nat)
    requires OffsetsOk(data, start, count) && at + 2 * count <= regs.Length
    modifies regs
    ensures i == OffsetsNext(data, start, count) && r == at + 2 * count
    ensures Written(old(regs[..]), regs[..], at, Registers(Offsets(data, start, count), base))
  {
    r, i := at, start;
    var left: nat := count;
    ghost var before, done := regs[..], [];
    while left > 0
      invariant left <= count && OffsetsOk(data, i, left) && OffsetsNext(data, i, left) == OffsetsNext(data, start, count)
      invariant r == at + |done| && |done| == 2 * (count - left)
      invariant Written(before, regs[..], at, done)
      invariant done + Registers(Offsets(data, i, left), base) == Registers(Offsets(data, start, count), base)
    {
      ghost var now := regs[..];
      ghost var os := Offsets(data, i, left);
      var offset, next := ReadOffset(data, i);
      PutRegister(regs, r, (base + offset * 4) % WORD);
      ghost var two := [Some(Address(base, offset)), None];
      WrittenThen(before, now, regs[..], at, done, two);
      assert os[0] == offset && os[1..] == Offsets(data, next, left - 1);
      RegistersOne(done, os, base);
      done := done + two;
      r, i, left := r + 2, next, left - 1;
    }
  }

  /** One item: a skip, or a header and its registers. */
  method PutItem(regs: array<nat>, at: nat, data: seq<nat>, start: nat, base: nat) returns (r: nat, i: nat)
    requires Bytes(data) && LayoutOk(data, start) && data[start] != 0
    requires at + |Cells(Items(data, start)[0], base)| <= regs.Length
    modifies regs
    ensures LayoutOk(data, i) && start < i && Items(data, start) == [Items(data, start)[0]] + Items(data, i)
    ensures r == at + |Cells(Items(data, start)[0], base)|
    ensures Written(old(regs[..]), regs[..], at, Cells(Items(data, start)[0], base))
  {
    var b := data[start];
    if b >= 128 {
      WrittenGap(regs[..], at, b % 128);
      return at + b % 128, start + 1;
    }
    var count := b % 64;
    ghost var before := regs[..];
    var header: nat := (LRI + 2 * count + WORD - 1) % WORD;
    if b / 64 % 2 == 1 {
      header := header + POSTED;
    }
    WrittenOne(before, at, header);
    regs[at] := header;
    assert regs[..] == before[at := header];
    ghost var now := regs[..];
    r, i := PutRegisters(regs, at + 1, data, start + 1, base, count);
    WrittenThen(before, now, regs[..], at, [Some(header)], Registers(Offsets(data, start + 1, count), base));
  }

  /** `done` is written from `at` on, up to `r`, and the items from `i` on are still to come. */
  ghost predicate Halfway(before: seq<nat>, now: seq<nat>, at: nat, r: nat, done: seq<Option<nat>>,
                          data: seq<nat>, i: nat, base: nat, all: seq<Option<nat>>) {
    && LayoutOk(data, i) && r == at + |done| && at + |all| <= |now|
    && Written(before, now, at, done)
    && done + Expand(Items(data, i), base) == all
  }

  method PutNext(regs: array<nat>, at: nat, r0: nat, data: seq<nat>, start: nat, base: nat,
                 ghost before: seq<nat>, ghost done: seq<Option<nat>>, ghost all: seq<Option<nat>>)
    returns (r: nat, i: nat, ghost more: seq<Option<nat>>)
    requires Bytes(data) && Halfway(before, regs[..], at, r0, done, data, start, base, all) && data[start] != 0
    modifies regs
    ensures start < i && Halfway(before, regs[..], at, r, more, data, i, base, all)
  {
    ghost var now, items := regs[..], Items(data, start);
    ExpandOne(done, items, base);
    more := done + Cells(items[0], base);
    assert |all| == |more| + |Expand(items[1..], base)|;
    r, i := PutItem(regs, r0, data, start, base);
    assert items[1..] == Items(data, i);
    WrittenThen(before, now, regs[..], at, done, Cells(items[0], base));
  }

  method PutAll(regs: array<nat>, at: nat, data: seq<nat>, base: nat) returns (r: nat)
    requires Bytes(data) && LayoutOk(data, 0) && at + |Expand(Items(data, 0), base)| <= regs.Length
    modifies regs
    ensures r == at + |Expand(Items(data, 0), base)|
    ensures Written(old(regs[..]), regs[..], at, Expand(Items(data, 0), base))
  {
    var i := 0;
    r := at;
    ghost var before, done, all := regs[..], [], Expand(Items(data, 0), base);
    while data[i] != 0
      invariant Halfway(before, regs[..], at, r, done, data, i, base, all)
      decreases |data| - i
    {
      r, i, done := PutNext(regs, at, r, data, i, base, before, done, all);
    }
    assert done == all;
  }

  /** setLrcOffsets(): exactly the cells the layout describes are written, then the end of the batch if asked for. */
  method SetOffsets(regs: array<nat>, at: nat, data: seq<nat>, base: nat, close: bool) returns (r: nat)
    requires Bytes(data) && LayoutOk(data, 0)
    requires at + |Expand(Items(data, 0), base)| + (if close then 1 else 0) <= regs.Length
    modifies regs
    ensures r == at + |Expand(Items(data, 0), base)|
    ensures Written(old(regs[..]), regs[..], at,
                    Expand(Items(data, 0), base) + if close then [Some(BATCH_END)] else [])
  {
    ghost var before, all := regs[..], Expand(Items(data, 0), base);
    r := PutAll(regs, at, data, base);
    if close {
      ghost var now := regs[..];
      WrittenOne(now, r, BATCH_END);
      regs[r] := BATCH_END;
      assert regs[..] == now[r := BATCH_END];
      WrittenThen(before, now, regs[..], at, all, [Some(BATCH_END)]);
    } else {
      assert all + [] == all;
    }
  }

  // --------------------------------------------------------------------------------------------------------------
  // What the engine reads.

  /** A load command: registers with the values to load. */
  datatype Command = Command(posted: bool, loads: seq<(nat, nat)>)

  function Pairs(dwords: seq<nat>, count: nat): seq<(nat, nat)>
    requires 2 * count <= |dwords|
  {
    if count == 0 then [] else [(dwords[0], dwords[1])] + Pairs(dwords[2..], count - 1)
  }

  /** MI_LOAD_REGISTER_IMM: opcode 0x22 in bits 23 to 31. */
  predicate IsLoad(dword: nat) {
    dword / 0x80_0000 == 0x22
  }

  function LoadCount(dword: nat): nat {
    (dword % 0x100 + 1) / 2
  }

  /** The commands up to the end of the batch; nothing for a batch that does not end or holds another command. */
  function Read(dwords: seq<nat>): Option<seq<Command>> {
    if dwords == [] then None
    else if dwords[0] == 0 then Read(dwords[1..])
    else if dwords[0] == 0x0500_0000 then Some([])
    else if !IsLoad(dwords[0]) || 1 + 2 * LoadCount(dwords[0]) > |dwords| then None
    else
      var n := LoadCount(dwords[0]);
      var rest := Read(dwords[1 + 2 * n..]);
      if rest == None then None
      else Some([Command(dwords[0] / 0x1000 % 2 == 1, Pairs(dwords[1..], n))] + rest.value)
  }

  /** A register as a number: offsets count four bytes each from the engine's base. */
  function Register(base: nat, offset: nat): nat {
    (base + 4 * offset) % 0x1_0000_0000
  }

  /** What the layout asks for. */
  function Asked(items: seq<Item>, base: nat): seq<Command> {
    if items == [] then []
    else if items[0].Skip? then Asked(items[1..], base)
    else [Command(items[0].posted, Loads(items[0].offsets, base))] + Asked(items[1..], base)
  }

  function Loads(offsets: seq<nat>, base: nat): seq<(nat, nat)> {
    if offsets == [] then [] else [(Register(base, offsets[0]), 0)] + Loads(offsets[1..], base)
  }

  /** The dwords of cells written over zeros. */
  function Image(cells: seq<Option<nat>>): (dwords: seq<nat>)
    ensures |dwords| == |cells|
  {
    seq(|cells|, i requires 0 <= i < |cells| => if cells[i].Some? then cells[i].value else 0)
  }

  lemma ImageConcat(xs: seq<Option<nat>>, ys: seq<Option<nat>>)
    ensures Image(xs + ys) == Image(xs) + Image(ys)
  {
  }

  lemma {:induction false} ReadSkip(n: nat, rest: seq<nat>)
    ensures Read(Image(seq(n, _ => None)) + rest) == Read(rest)
  {
    var gap: seq<Option<nat>> := seq(n, _ => None);
    if n == 0 {
      assert Image(gap) + rest == rest;
    } else {
      var less: seq<Option<nat>> := seq(n - 1, _ => None);
      var dwords := Image(gap) + rest;
      assert dwords[0] == 0 && dwords[1..] == Image(less) + rest;
      ReadSkip(n - 1, rest);
    }
  }

  lemma {:induction false} PairsOfRegisters(offsets: seq<nat>, base: nat, rest: seq<nat>)
    ensures Pairs(Image(Registers(offsets, base)) + rest, |offsets|) == Loads(offsets, base)
  {
    if offsets != [] {
      var tail := Registers(offsets[1..], base);
      var dwords := Image(Registers(offsets, base)) + rest;
      assert dwords[2..] == Image(tail) + rest;
      PairsOfRegisters(offsets[1..], base, rest);
    }
  }

  predicate HeaderFor(dword: nat, posted: bool, count: nat) {
    IsLoad(dword) && LoadCount(dword) == count && (dword / 0x1000 % 2 == 1) == posted
  }

  lemma HeaderIs(posted: bool, count: nat)
    requires 1 <= count <= 63
    ensures var h := Header(posted, count); h != 0 && h != BATCH_END && HeaderFor(h, posted, count)
  {
  }

  lemma ReadStep(dwords: seq<nat>, n: nat, rest: seq<nat>)
    requires dwords != [] && dwords[0] != 0 && dwords[0] != BATCH_END && IsLoad(dwords[0]) && LoadCount(dwords[0]) == n
    requires 1 + 2 * n <= |dwords| && dwords[1 + 2 * n..] == rest
    ensures Read(dwords) == if Read(rest) == None then None
                            else Some([Command(dwords[0] / POSTED % 2 == 1, Pairs(dwords[1..], n))] + Read(rest).value)
  {
  }

  lemma ImageAfter(h: nat, body: seq<Option<nat>>, rest: seq<nat>)
    ensures var dwords := Image([Some(h)] + body) + rest;
            dwords[0] == h && dwords[1..] == Image(body) + rest && dwords[1 + |body|..] == rest
  {
  }

  lemma ReadLoad(posted: bool, offsets: seq<nat>, base: nat, rest: seq<nat>)
    requires 1 <= |offsets| <= 63
    ensures var dwords := Image(Cells(Load(posted, offsets), base)) + rest;
            Read(dwords) == if Read(rest) == None then None
                            else Some([Command(posted, Loads(offsets, base))] + Read(rest).value)
  {
    var h, body := Header(posted, |offsets|), Registers(offsets, base);
    var dwords := Image(Cells(Load(posted, offsets), base)) + rest;
    ImageAfter(h, body, rest);
    HeaderIs(posted, |offsets|);
    PairsOfRegisters(offsets, base, rest);
    ReadStep(dwords, |offsets|, rest);
  }

  predicate ItemOk(item: Item) {
    item.Load? ==> 1 <= |item.offsets| <= 63
  }

  lemma {:induction false} ReadBack(items: seq<Item>, base: nat, rest: seq<nat>)
    requires forall k | 0 <= k < |items| :: ItemOk(items[k])
    ensures Read(Image(Expand(items, base)) + [BATCH_END] + rest) == Some(Asked(items, base))
  {
    var tail := [BATCH_END] + rest;
    if items == [] {
      assert Image(Expand(items, base)) + [BATCH_END] + rest == tail;
    } else {
      var first, more := Image(Cells(items[0], base)), Image(Expand(items[1..], base));
      ImageConcat(Cells(items[0], base), Expand(items[1..], base));
      assert Image(Expand(items, base)) + [BATCH_END] + rest == first + (more + [BATCH_END] + rest);
      ReadBack(items[1..], base, rest);
      match items[0]
      case Skip(n) => ReadSkip(n, more + [BATCH_END] + rest);
      case Load(posted, offsets) => ReadLoad(posted, offsets, base, more + [BATCH_END] + rest);
    }
  }

  lemma {:induction false} ItemsOk(data: seq<nat>, i: nat)
    requires LayoutOk(data, i)
    ensures forall k | 0 <= k < |Items(data, i)| :: ItemOk(Items(data, i)[k])
    decreases |data| - i
  {
    if data[i] != 0 {
      if data[i] >= 128 {
        ItemsOk(data, i + 1);
      } else {
        ItemsOk(data, OffsetsNext(data, i + 1, data[i] % 64));
      }
    }
  }

  /** Written over a zeroed buffer, the engine reads back exactly the commands the byte code describes, in order. */
  lemma RoundTrip(data: seq<nat>, base: nat, before: seq<nat>, after: seq<nat>, at: nat)
    requires LayoutOk(data, 0) && forall i | 0 <= i < |before| :: before[i] == 0
    requires Written(before, after, at, Expand(Items(data, 0), base) + [Some(BATCH_END)])
    ensures Read(after[at..]) == Some(Asked(Items(data, 0), base))
  {
    var cells, n := Expand(Items(data, 0), base), |Expand(Items(data, 0), base)|;
    ItemsOk(data, 0);
    var rest := after[at + n + 1..];
    assert after[at..] == Image(cells) + [BATCH_END] + rest;
    ReadBack(Items(data, 0), base, rest);
  }

  // --------------------------------------------------------------------------------------------------------------
  // Where it stands: the rest of the driver finds a context's registers by their place in the image.

  function Width(item: Item): nat {
    match item
    case Skip(n) => n
    case Load(_, offsets) => 1 + 2 * |offsets|
  }

  /** Where the `k`th item starts. */
  function Start(items: seq<Item>, k: nat): nat
    requires k <= |items|
  {
    if k == 0 then 0 else Width(items[0]) + Start(items[1..], k - 1)
  }

  lemma {:induction false} RegisterAt(offsets: seq<nat>, base: nat, j: nat)
    requires j < |offsets|
    ensures Registers(offsets, base)[2 * j] == Some(Register(base, offsets[j])) && Registers(offsets, base)[2 * j + 1] == None
  {
    if j > 0 {
      RegisterAt(offsets[1..], base, j - 1);
    }
  }

  /** A skip leaves all its dwords alone. */
  lemma WidthIs(item: Item, base: nat)
    ensures |Cells(item, base)| == Width(item)
    ensures item.Skip? ==> forall j | 0 <= j < item.dwords :: Cells(item, base)[j] == None
  {
  }

  lemma Beyond(xs: seq<Option<nat>>, ys: seq<Option<nat>>, i: nat)
    requires i < |ys|
    ensures |xs| + i < |xs + ys| && (xs + ys)[|xs| + i] == ys[i]
  {
  }

  ghost predicate Holds(all: seq<Option<nat>>, at: nat, cells: seq<Option<nat>>) {
    at + |cells| <= |all| && forall j | 0 <= j < |cells| :: all[at + j] == cells[j]
  }

  lemma HoldsLater(first: seq<Option<nat>>, rest: seq<Option<nat>>, at: nat, cells: seq<Option<nat>>)
    requires Holds(rest, at, cells)
    ensures Holds(first + rest, |first| + at, cells)
  {
    forall j | 0 <= j < |cells|
      ensures |first| + at + j < |first + rest| && (first + rest)[|first| + at + j] == cells[j]
    {
      Beyond(first, rest, at + j);
    }
  }

  function Flat(parts: seq<seq<Option<nat>>>): seq<Option<nat>> {
    if parts == [] then [] else parts[0] + Flat(parts[1..])
  }

  function Before(parts: seq<seq<Option<nat>>>, k: nat): nat
    requires k <= |parts|
  {
    if k == 0 then 0 else |parts[0]| + Before(parts[1..], k - 1)
  }

  lemma {:induction false} PartAt(parts: seq<seq<Option<nat>>>, k: nat)
    requires k < |parts|
    ensures Holds(Flat(parts), Before(parts, k), parts[k])
  {
    if k > 0 {
      PartAt(parts[1..], k - 1);
      HoldsLater(parts[0], Flat(parts[1..]), Before(parts[1..], k - 1), parts[k]);
    }
  }

  function Parts(items: seq<Item>, base: nat): (parts: seq<seq<Option<nat>>>)
    ensures |parts| == |items| && forall k | 0 <= k < |items| :: parts[k] == Cells(items[k], base)
  {
    seq(|items|, k requires 0 <= k < |items| => Cells(items[k], base))
  }

  lemma {:induction false} ExpandIsFlat(items: seq<Item>, base: nat)
    ensures Expand(items, base) == Flat(Parts(items, base))
  {
    if items != [] {
      ExpandIsFlat(items[1..], base);
      assert Parts(items, base)[1..] == Parts(items[1..], base);
    }
  }

  lemma {:induction false} BeforeIs(items: seq<Item>, parts: seq<seq<Option<nat>>>, k: nat)
    requires |parts| == |items| && k <= |items| && forall i | 0 <= i < |items| :: |parts[i]| == Width(items[i])
    ensures Before(parts, k) == Start(items, k)
  {
    if k > 0 {
      BeforeIs(items[1..], parts[1..], k - 1);
    }
  }

  lemma PartWidths(items: seq<Item>, base: nat)
    ensures forall k | 0 <= k < |items| :: |Parts(items, base)[k]| == Width(items[k])
  {
    forall k | 0 <= k < |items|
      ensures |Parts(items, base)[k]| == Width(items[k])
    {
      WidthIs(items[k], base);
    }
  }

  /** Each item's cells stand after those of the items before it. */
  lemma CellsAt(items: seq<Item>, base: nat, k: nat)
    requires k < |items|
    ensures Holds(Expand(items, base), Start(items, k), Cells(items[k], base)) && |Cells(items[k], base)| == Width(items[k])
  {
    var parts := Parts(items, base);
    ExpandIsFlat(items, base);
    PartWidths(items, base);
    BeforeIs(items, parts, k);
    PartAt(parts, k);
  }

  /** A load's header comes first, with the count and whether it is posted. */
  lemma LoadHeader(posted: bool, offsets: seq<nat>, base: nat)
    requires 1 <= |offsets| <= 63
    ensures var cells := Cells(Load(posted, offsets), base);
            |cells| == 1 + 2 * |offsets| && cells[0].Some? && HeaderFor(cells[0].value, posted, |offsets|)
  {
    HeaderIs(posted, |offsets|);
  }

  /** Its registers are in every other dword, and their values are left alone. */
  lemma LoadCells(posted: bool, offsets: seq<nat>, base: nat, i: nat)
    requires i < |offsets|
    ensures var cells := Cells(Load(posted, offsets), base);
            && |cells| == 1 + 2 * |offsets|
            && cells[1 + 2 * i] == Some(Register(base, offsets[i])) && cells[2 + 2 * i] == None
  {
    var cells, body := Cells(Load(posted, offsets), base), Registers(offsets, base);
    RegisterAt(offsets, base, i);
    assert cells[1 + 2 * i] == body[2 * i] && cells[2 + 2 * i] == body[2 * i + 1];
  }

  // --------------------------------------------------------------------------------------------------------------
  // Writing a layout down, as the tables do: one byte for a small offset, two for a larger one.

  function OffsetBytes(o: nat): seq<nat>
    requires o < 0x4000
  {
    if o < 128 then [o] else [o / 128 + 128, o % 128]
  }

  predicate Encodable(item: Item) {
    match item
    case Skip(n) => n < 128
    case Load(_, offsets) => 1 <= |offsets| <= 63 && SmallOffsets(offsets)
  }

  predicate SmallOffsets(offsets: seq<nat>) {
    offsets != [] ==> offsets[0] < 0x4000 && SmallOffsets(offsets[1..])
  }

  predicate AllEncodable(items: seq<Item>) {
    items != [] ==> Encodable(items[0]) && AllEncodable(items[1..])
  }

  function OffsetsBytes(offsets: seq<nat>): seq<nat>
    requires SmallOffsets(offsets)
  {
    if offsets == [] then [] else OffsetBytes(offsets[0]) + OffsetsBytes(offsets[1..])
  }

  function ItemBytes(item: Item): seq<nat>
    requires Encodable(item)
  {
    match item
    case Skip(n) => [128 + n]
    case Load(posted, offsets) => [LeadByte(posted, |offsets|)] + OffsetsBytes(offsets)
  }

  function LeadByte(posted: bool, count: nat): nat {
    (if posted then 64 else 0) + count
  }

  lemma LeadByteIs(posted: bool, count: nat)
    requires 1 <= count <= 63
    ensures var b := LeadByte(posted, count); 0 < b < 128 && b % 64 == count && (b / 64 % 2 == 1) == posted
  {
  }

  function Encode(items: seq<Item>): seq<nat>
    requires AllEncodable(items)
  {
    if items == [] then [0] else ItemBytes(items[0]) + Encode(items[1..])
  }

  lemma TwoGroups(o: nat)
    requires 128 <= o < 0x4000
    ensures Shift7(Shift7(0, o / 128 + 128), o % 128) == o
  {
  }

  /** `bytes` stand at `i`. */
  predicate Stand(data: seq<nat>, i: nat, bytes: seq<nat>) {
    i + |bytes| <= |data| && forall k | 0 <= k < |bytes| :: data[i + k] == bytes[k]
  }

  lemma StandParts(data: seq<nat>, i: nat, xs: seq<nat>, ys: seq<nat>)
    requires Stand(data, i, xs + ys)
    ensures Stand(data, i, xs) && Stand(data, i + |xs|, ys)
  {
    var both := xs + ys;
    forall k | 0 <= k < |xs|
      ensures data[i + k] == xs[k]
    {
      assert data[i + k] == both[k];
    }
    forall k | 0 <= k < |ys|
      ensures data[i + |xs| + k] == ys[k]
    {
      assert data[i + (|xs| + k)] == both[|xs| + k];
    }
  }

  lemma OffsetRead(data: seq<nat>, i: nat, o: nat)
    requires o < 0x4000 && Stand(data, i, OffsetBytes(o))
    ensures OffsetOk(data, i) && OffsetNext(data, i) == i + |OffsetBytes(o)| && OffsetValue(data, i, 0) == o
  {
    assert data[i + 0] == OffsetBytes(o)[0];
    if o >= 128 {
      assert data[i + 1] == OffsetBytes(o)[1];
      TwoGroups(o);
      assert OffsetOk(data, i + 1) && OffsetNext(data, i + 1) == i + 2;
    }
  }

  lemma {:induction false} OffsetsRead(data: seq<nat>, i: nat, os: seq<nat>)
    requires SmallOffsets(os) && Stand(data, i, OffsetsBytes(os))
    ensures OffsetsOk(data, i, |os|) && OffsetsNext(data, i, |os|) == i + |OffsetsBytes(os)|
    ensures Offsets(data, i, |os|) == os
    decreases |os|
  {
    if os != [] {
      var first, more := OffsetBytes(os[0]), OffsetsBytes(os[1..]);
      StandParts(data, i, first, more);
      OffsetRead(data, i, os[0]);
      OffsetsRead(data, i + |first|, os[1..]);
      assert os == [os[0]] + os[1..];
    }
  }

  /** An item at `i`, and a good layout after it. */
  lemma ItemRead(data: seq<nat>, i: nat, item: Item, j: nat)
    requires Encodable(item) && Stand(data, i, ItemBytes(item)) && j == i + |ItemBytes(item)| && LayoutOk(data, j)
    ensures LayoutOk(data, i) && Items(data, i) == [item] + Items(data, j)
  {
    assert data[i + 0] == ItemBytes(item)[0];
    if item.Load? {
      LoadRead(data, i, item.posted, item.offsets);
    }
  }

  lemma LoadRead(data: seq<nat>, i: nat, posted: bool, os: seq<nat>)
    requires Encodable(Load(posted, os)) && Stand(data, i, ItemBytes(Load(posted, os)))
    ensures 0 < data[i] < 128 && data[i] % 64 == |os| && (data[i] / 64 % 2 == 1) == posted
    ensures OffsetsOk(data, i + 1, |os|) && OffsetsNext(data, i + 1, |os|) == i + |ItemBytes(Load(posted, os))|
    ensures Offsets(data, i + 1, |os|) == os
  {
    var b := LeadByte(posted, |os|);
    StandParts(data, i, [b], OffsetsBytes(os));
    assert data[i + 0] == [b][0];
    LeadByteIs(posted, |os|);
    OffsetsRead(data, i + 1, os);
  }

  lemma EndRead(data: seq<nat>, i: nat)
    requires Stand(data, i, [0])
    ensures LayoutOk(data, i) && Items(data, i) == []
  {
    assert data[i + 0] == [0][0];
  }

  lemma EncodeStands(data: seq<nat>, i: nat, items: seq<Item>)
    requires items != [] && AllEncodable(items) && Stand(data, i, Encode(items))
    ensures Stand(data, i, ItemBytes(items[0]) + Encode(items[1..]))
  {
  }

  lemma EncodeParts(data: seq<nat>, i: nat, items: seq<Item>)
    requires items != [] && AllEncodable(items) && Stand(data, i, ItemBytes(items[0]) + Encode(items[1..]))
    ensures Stand(data, i, ItemBytes(items[0])) && Stand(data, i + |ItemBytes(items[0])|, Encode(items[1..]))
  {
    StandParts(data, i, ItemBytes(items[0]), Encode(items[1..]));
  }

  lemma EncodeHead(data: seq<nat>, i: nat, items: seq<Item>) returns (j: nat)
    requires items != [] && AllEncodable(items) && Stand(data, i, Encode(items))
    ensures Encodable(items[0]) && AllEncodable(items[1..]) && j == i + |ItemBytes(items[0])|
    ensures Stand(data, i, ItemBytes(items[0])) && Stand(data, j, Encode(items[1..])) && [items[0]] + items[1..] == items
  {
    EncodeStands(data, i, items);
    EncodeParts(data, i, items);
    j := i + |ItemBytes(items[0])|;
  }

  /** Reading a layout gives back what was written down. */
  lemma {:induction false} EncodeRead(data: seq<nat>, i: nat, items: seq<Item>)
    requires AllEncodable(items)
    requires Stand(data, i, Encode(items))
    ensures LayoutOk(data, i) && Items(data, i) == items
    decreases |items|
  {
    if items == [] {
      EndRead(data, i);
    } else {
      var j := EncodeHead(data, i, items);
      EncodeRead(data, j, items[1..]);
      ItemRead(data, i, items[0], j);
    }
  }
}
