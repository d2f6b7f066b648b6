/**
 * The log of a build that others attach to (src/daemon/log-spill.hh): what its bytes hold,
 * and what a reader that starts or resumes at a record gets.
 */
module LogSpill {
  import opened Lists

  type Byte = x: int | 0 <= x < 256

  const CAP: int := 0x400_0000        // the default
  const MAX_TEXT: int := 0x10_0000
  const HEADER: int := 5
  // "[log truncated by the worker]"
  const TRUNCATED: seq<Byte> :=
    [91, 108, 111, 103, 32, 116, 114, 117, 110, 99, 97, 116, 101, 100, 32,
     98, 121, 32, 116, 104, 101, 32, 119, 111, 114, 107, 101, 114, 93]

  datatype Kind = Line | Phase
  datatype Record = Record(kind: Kind, text: seq<Byte>)

  const MARKER: Record := Record(Line, TRUNCATED)

  // ----------------------------------------------------------------- the format

  function Le32(n: int): (r: seq<Byte>)
    requires 0 <= n < 0x1_0000_0000
    ensures |r| == 4
  {
    var b := n / 0x100;
    var c := b / 0x100;
    var d := c / 0x100;
    [n % 0x100, b % 0x100, c % 0x100, d % 0x100]
  }

  lemma Le32RoundTrip(n: int)
    requires 0 <= n < 0x1_0000_0000
    ensures FromLe32(Le32(n)) == n
  {
  }

  function FromLe32(raw: seq<Byte>): int
    requires |raw| == 4
  {
    raw[0] as int + 0x100 * (raw[1] as int) + 0x1_0000 * (raw[2] as int) + 0x100_0000 * (raw[3] as int)
  }

  function KindByte(kind: Kind): Byte {
    match kind case Line => 0 case Phase => 1
  }

  ghost predicate Storable(r: Record) {
    |r.text| <= MAX_TEXT
  }

  ghost function Encode(r: Record): (b: seq<Byte>)
    requires Storable(r)
    ensures |b| == HEADER + |r.text|
  {
    [KindByte(r.kind)] + Le32(|r.text|) + r.text
  }

  ghost predicate AllStorable(rs: seq<Record>) {
    forall i :: 0 <= i < |rs| ==> Storable(rs[i])
  }

  ghost function EncodeAll(rs: seq<Record>): seq<Byte>
    requires AllStorable(rs)
  {
    if rs == [] then [] else EncodeAll(rs[..|rs| - 1]) + Encode(rs[|rs| - 1])
  }

  /** Where record k starts. */
  ghost function Start(rs: seq<Record>, k: nat): nat
    requires AllStorable(rs) && k <= |rs|
  {
    |EncodeAll(rs[..k])|
  }

  /** Record k lies at its start, in full. */
  lemma {:induction false} RecordAt(rs: seq<Record>, k: nat)
    requires AllStorable(rs) && k < |rs|
    ensures Start(rs, k + 1) == Start(rs, k) + HEADER + |rs[k].text| <= |EncodeAll(rs)|
    ensures EncodeAll(rs)[Start(rs, k)..Start(rs, k + 1)] == Encode(rs[k])
    decreases |rs|
  {
    hide Encode;
    var n := |rs| - 1;
    assert rs[..k + 1][..k] == rs[..k];
    if k == n {
      assert rs[..k + 1] == rs;
    } else {
      var front := rs[..n];
      RecordAt(front, k);
      assert front[..k] == rs[..k] && front[..k + 1] == rs[..k + 1];
      assert EncodeAll(rs)[..|EncodeAll(front)|] == EncodeAll(front);
    }
  }

  lemma StartEnd(rs: seq<Record>)
    requires AllStorable(rs)
    ensures Start(rs, 0) == 0 && Start(rs, |rs|) == |EncodeAll(rs)|
  {
    assert rs[..0] == [] && rs[..|rs|] == rs;
  }

  // ----------------------------------------------------------------- what is kept

  datatype Log = Log(records: seq<Record>, ended: bool)

  function Clamp(r: Record): Record {
    if |r.text| > MAX_TEXT then r.(text := r.text[..MAX_TEXT]) else r
  }

  function Size(rs: seq<Record>): nat {
    if rs == [] then 0 else Size(rs[..|rs| - 1]) + HEADER + |rs[|rs| - 1].text|
  }

  /** The log after one more record: clamped, or the marker and nothing more if it does not fit. */
  function Kept(log: Log, cap: int, r: Record): Log {
    if log.ended then log
    else if Size(log.records) + HEADER + |Clamp(r).text| > cap then Log(log.records + [MARKER], true)
    else Log(log.records + [Clamp(r)], false)
  }

  function KeptAll(cap: int, rs: seq<Record>): Log {
    if rs == [] then Log([], false) else Kept(KeptAll(cap, rs[..|rs| - 1]), cap, rs[|rs| - 1])
  }

  function Clamped(rs: seq<Record>): seq<Record> {
    seq(|rs|, i requires 0 <= i < |rs| => Clamp(rs[i]))
  }

  lemma {:induction false} SizeIsBytes(rs: seq<Record>)
    requires AllStorable(rs)
    ensures Size(rs) == |EncodeAll(rs)|
  {
    if rs != [] {
      SizeIsBytes(rs[..|rs| - 1]);
    }
  }

  /** The log of `rs` is its first k records, clamped, with one marker after them if that is
      not all; they fit, and one more would not. */
  ghost predicate IsKeptPrefix(cap: int, rs: seq<Record>, log: Log, k: nat) {
    && k <= |rs| && Size(Clamped(rs[..k])) <= cap
    && (log.ended <==> k < |rs|)
    && log.records == (if k < |rs| then Clamped(rs[..k]) + [MARKER] else Clamped(rs[..k]))
    && (k < |rs| ==> Size(Clamped(rs[..k + 1])) > cap)
  }

  lemma {:induction false} KeptIsPrefix(cap: int, rs: seq<Record>) returns (k: nat)
    requires cap >= 0
    ensures IsKeptPrefix(cap, rs, KeptAll(cap, rs), k)
  {
    hide Clamped, Kept;
    if rs == [] {
      k := 0;
      NoneKept(cap);
    } else {
      var n := |rs| - 1;
      k := KeptIsPrefix(cap, rs[..n]);
      if k < n {
        KeptFull(cap, rs, k);
      } else {
        k := KeptMore(cap, rs);
      }
    }
  }

  lemma NoneKept(cap: int)
    requires cap >= 0
    ensures IsKeptPrefix(cap, [], KeptAll(cap, []), 0)
  {
  }

  lemma KeptFull(cap: int, rs: seq<Record>, k: nat)
    requires rs != [] && k < |rs| - 1 && IsKeptPrefix(cap, rs[..|rs| - 1], KeptAll(cap, rs[..|rs| - 1]), k)
    ensures IsKeptPrefix(cap, rs, KeptAll(cap, rs), k)
  {
    hide Clamped, Size;
    var front := rs[..|rs| - 1];
    assert front[..k] == rs[..k] && front[..k + 1] == rs[..k + 1];
  }

  lemma KeptMore(cap: int, rs: seq<Record>) returns (k: nat)
    requires rs != [] && IsKeptPrefix(cap, rs[..|rs| - 1], KeptAll(cap, rs[..|rs| - 1]), |rs| - 1)
    ensures IsKeptPrefix(cap, rs, KeptAll(cap, rs), k)
  {
    var n := |rs| - 1;
    assert rs[..n][..n] == rs[..n] && rs[..n + 1] == rs;
    ClampedMore(rs);
    hide Clamped, Size, Clamp;
    k := if Size(Clamped(rs)) <= cap then n + 1 else n;
  }

  /** It overshoots the cap by the marker at most. */
  lemma {:induction false} KeptFits(cap: int, rs: seq<Record>)
    requires cap >= 0
    ensures Size(KeptAll(cap, rs).records) <= cap + HEADER + |TRUNCATED|
  {
    var k := KeptIsPrefix(cap, rs);
    hide KeptAll;
    SizeMore(Clamped(rs[..k]), MARKER);
  }

  lemma SizeMore(rs: seq<Record>, r: Record)
    ensures Size(rs + [r]) == Size(rs) + HEADER + |r.text|
  {
  }

  lemma ClampedMore(rs: seq<Record>)
    requires rs != []
    ensures Clamped(rs) == Clamped(rs[..|rs| - 1]) + [Clamp(rs[|rs| - 1])]
    ensures Size(Clamped(rs)) == Size(Clamped(rs[..|rs| - 1])) + HEADER + |Clamp(rs[|rs| - 1]).text|
  {
  }

  lemma {:induction false} KeptGrows(cap: int, rs: seq<Record>, r: Record)
    ensures KeptAll(cap, rs + [r]) == Kept(KeptAll(cap, rs), cap, r)
    ensures KeptAll(cap, rs).records <= KeptAll(cap, rs + [r]).records
  {
  }

  lemma EncodeIs(r: Record)
    requires Storable(r)
    ensures Encode(r) == ([KindByte(r.kind)] + Le32(|r.text|)) + r.text
  {
  }

  lemma EncodeMore(rs: seq<Record>, r: Record)
    requires AllStorable(rs) && Storable(r)
    ensures AllStorable(rs + [r]) && EncodeAll(rs + [r]) == EncodeAll(rs) + Encode(r)
    ensures Size(rs + [r]) == Size(rs) + HEADER + |r.text|
  {
  }

  /** A record reads back from its bytes. */
  lemma DecodeAt(bytes: seq<Byte>, off: nat, r: Record)
    requires Storable(r) && off + HEADER + |r.text| <= |bytes|
    requires bytes[off..off + HEADER + |r.text|] == Encode(r)
    ensures bytes[off] == KindByte(r.kind) && FromLe32(bytes[off + 1..off + HEADER]) == |r.text|
    ensures bytes[off + HEADER..off + HEADER + |r.text|] == r.text
  {
    Le32RoundTrip(|r.text|);
    hide Le32, FromLe32;
    var e := Encode(r);
    var rec := bytes[off..off + HEADER + |r.text|];
    assert e[0] == KindByte(r.kind) && e[1..HEADER] == Le32(|r.text|) && e[HEADER..] == r.text;
    assert bytes[off] == rec[0];
    Slices(bytes, off, off + HEADER + |r.text|, 1, HEADER);
    Slices(bytes, off, off + HEADER + |r.text|, HEADER, HEADER + |r.text|);
    assert rec[HEADER..] == rec[HEADER..HEADER + |r.text|];
  }

  lemma Slices(bytes: seq<Byte>, a: nat, b: nat, c: nat, d: nat)
    requires c <= d <= b - a && b <= |bytes|
    ensures bytes[a..b][c..d] == bytes[a + c..a + d]
  {
    assert |bytes[a..b][c..d]| == |bytes[a + c..a + d]|;
    forall i | 0 <= i < d - c
      ensures bytes[a..b][c..d][i] == bytes[a + c..a + d][i]
    {
    }
  }

  /** Record k of a spill reads back from its file. */
  lemma ReadBack(bytes: seq<Byte>, rs: seq<Record>, k: nat)
    requires AllStorable(rs) && k < |rs| && |EncodeAll(rs)| <= |bytes| && bytes[..|EncodeAll(rs)|] == EncodeAll(rs)
    ensures Start(rs, k + 1) == Start(rs, k) + HEADER + |rs[k].text| <= |EncodeAll(rs)| && |rs[k].text| <= MAX_TEXT
    ensures var off := Start(rs, k);
      && bytes[off] == KindByte(rs[k].kind) && FromLe32(bytes[off + 1..off + HEADER]) == |rs[k].text|
      && bytes[off + HEADER..off + HEADER + |rs[k].text|] == rs[k].text
  {
    hide EncodeAll, Encode, Start, Le32, FromLe32;
    RecordAt(rs, k);
    var off, all := Start(rs, k), EncodeAll(rs);
    Slices(bytes, 0, |all|, off, Start(rs, k + 1));
    assert bytes[..|all|] == bytes[0..|all|];
    DecodeAt(bytes, off, rs[k]);
  }

  // ----------------------------------------------------------------- the spill

  class Spill {
    const cap: nat
    var file: seq<Byte>
    var hasFile: bool
    var written: nat                  // bytes readers may read
    var ended: bool
    ghost var records: seq<Record>    // what they hold
    ghost var appended: seq<Record>
    ghost var broken: bool            // the file failed

    ghost predicate Valid()
      reads this
    {
      && AllStorable(records) && written == Size(records) == |EncodeAll(records)| <= |file|
      && file[..written] == EncodeAll(records)
      && (broken ==> ended) && records <= KeptAll(cap, appended).records
      && (!broken ==> Log(records, ended) == KeptAll(cap, appended))
    }

    constructor (cap: nat)
      ensures Valid() && this.cap == cap && appended == [] && !broken
    {
      this.cap := cap;
      file, hasFile, written, ended, records, appended, broken := [], false, 0, false, [], [], false;
    }

    /** `junk` is what a failed write leaves behind. */
    method Append(kind: Kind, text: seq<Byte>, openOk: bool, writeOk: bool, junk: seq<Byte>)
      requires Valid()
      modifies this
      ensures Valid() && appended == old(appended) + [Record(kind, text)] && old(records) <= records
      ensures broken ==> old(broken) || !openOk || !writeOk
    {
      hide KeptAll, EncodeAll, Encode, AllStorable, Size;
      KeptGrows(cap, appended, Record(kind, text));
      appended := appended + [Record(kind, text)];
      if ended {
        return;
      }
      var r := Clamp(Record(kind, text));
      var tail := written;
      if tail + HEADER + |r.text| > cap {
        ended := true;
        r := MARKER;
      }
      if !hasFile {
        if !openOk {
          ended, broken := true, true;
          return;
        }
        hasFile := true;
      }
      Store(r, writeOk, junk);
    }

    /** Writes a record at the tail; readers see it only then. */
    method Store(r: Record, writeOk: bool, junk: seq<Byte>)
      requires AllStorable(records) && written == Size(records) == |EncodeAll(records)| <= |file|
      requires file[..written] == EncodeAll(records) && Storable(r)
      modifies this`file, this`written, this`ended, this`records, this`broken
      ensures AllStorable(records) && written == Size(records) == |EncodeAll(records)| <= |file|
      ensures file[..written] == EncodeAll(records)
      ensures writeOk ==> records == old(records) + [r] && ended == old(ended) && broken == old(broken)
      ensures !writeOk ==> records == old(records) && ended && broken
    {
      hide EncodeAll, Size, Le32, AllStorable, KindByte;
      if !writeOk {
        file := file[..written] + junk;
        ended, broken := true, true;
        return;
      }
      EncodeMore(records, r);
      file := file[..written] + ([KindByte(r.kind)] + Le32(|r.text|)) + r.text;
      EncodeIs(r);
      hide Encode;
      assert file == EncodeAll(records) + Encode(r);
      written := written + HEADER + |r.text|;
      records := records + [r];
    }

    /** Replays from a record's start to what is written by now, unless a read fails: then that
        record and the rest are skipped. */
    method Drain(from: nat, ghost first: nat, readable: nat -> bool)
      returns (emitted: seq<Record>, next: nat, ghost upTo: nat)
      requires Valid() && first <= |records| && from == Start(records, first)
      ensures next == written == Start(records, |records|)
      ensures first <= upTo <= |records| && emitted == records[first..upTo]
      ensures forall k :: first <= k < upTo ==> ReadOk(records, k, readable)
      ensures upTo < |records| ==> !ReadOk(records, upTo, readable)
    {
      hide KeptAll, EncodeAll, Size, Start, AllStorable, ReadOk;
      StartEnd(records);
      emitted := [];
      var end := written;
      var offset := from;
      upTo := first;
      while offset < end
        invariant first <= upTo <= |records| && offset == Start(records, upTo) && emitted == records[first..upTo]
        invariant forall k :: first <= k < upTo ==> ReadOk(records, k, readable)
        decreases |records| - upTo
      {
        AtLeastOneLeft(records, upTo);
        var r := Read(offset, upTo, readable);
        if r.None? {
          next := end;
          return;
        }
        SliceMore(records, first, upTo);
        emitted := emitted + [r.value];
        offset := offset + HEADER + |r.value.text|;
        upTo := upTo + 1;
      }
      CaughtUp(records, upTo);
      next := offset;
    }

    /** The record at an offset, if it can be read. */
    method Read(offset: nat, ghost k: nat, readable: nat -> bool) returns (r: Option<Record>)
      requires Valid() && k < |records| && offset == Start(records, k)
      ensures Start(records, k + 1) == offset + HEADER + |records[k].text|
      ensures r == if ReadOk(records, k, readable) then Some(records[k]) else None
    {
      hide KeptAll, EncodeAll, Size, Start, AllStorable, FromLe32;
      ReadBack(file, records, k);
      if !readable(offset) {
        return None;
      }
      var kind := file[offset];
      var len := FromLe32(file[offset + 1..offset + HEADER]);
      if len > MAX_TEXT || kind > 1 {
        return None;
      }
      if len > 0 && !readable(offset + HEADER) {
        return None;
      }
      return Some(Record(if kind == 0 then Line else Phase, file[offset + HEADER..offset + HEADER + len]));
    }
  }

  lemma SliceMore(rs: seq<Record>, a: nat, b: nat)
    requires a <= b < |rs|
    ensures rs[a..b + 1] == rs[a..b] + [rs[b]]
  {
  }

  /** Header and text of record k can be read; an empty text is not read. */
  ghost predicate ReadOk(rs: seq<Record>, k: nat, readable: nat -> bool)
    requires AllStorable(rs) && k < |rs|
  {
    readable(Start(rs, k)) && (rs[k].text != [] ==> readable(Start(rs, k) + HEADER))
  }

  lemma AtLeastOneLeft(rs: seq<Record>, k: nat)
    requires AllStorable(rs) && k <= |rs| && Start(rs, k) < |EncodeAll(rs)|
    ensures k < |rs|
  {
    StartEnd(rs);
  }

  /** Only the end starts no record. */
  lemma CaughtUp(rs: seq<Record>, k: nat)
    requires AllStorable(rs) && k <= |rs| && Start(rs, k) >= |EncodeAll(rs)|
    ensures k == |rs|
  {
    if k < |rs| {
      RecordAt(rs, k);
    }
  }

  /** What the owner appends, and how the file takes it. */
  datatype Op = Op(kind: Kind, text: seq<Byte>, openOk: bool, writeOk: bool, junk: seq<Byte>)

  /** One turn of a follower's loop: what the owner does before the drain, what the drain can
      read, what the owner does between it and the test for the end; whether the owner then is finished;
      whether the caller cancels. */
  datatype Turn = Turn(before: seq<Op>, readable: nat -> bool, after: seq<Op>, finish: bool, cancel: bool)

  method Owner(spill: Spill, ops: seq<Op>)
    requires spill.Valid()
    modifies spill
    ensures spill.Valid() && old(spill.records) <= spill.records
    ensures ops == [] ==> spill.records == old(spill.records)
  {
    hide KeptAll, EncodeAll;
    for i := 0 to |ops|
      invariant spill.Valid() && old(spill.records) <= spill.records
      invariant i == 0 ==> spill.records == old(spill.records)
    {
      spill.Append(ops[i].kind, ops[i].text, ops[i].openOk, ops[i].writeOk, ops[i].junk);
    }
  }

  lemma StartStable(rs: seq<Record>, rs': seq<Record>, k: nat)
    requires AllStorable(rs) && AllStorable(rs') && rs <= rs' && k <= |rs|
    ensures Start(rs', k) == Start(rs, k) && rs'[..k] == rs[..k]
  {
  }

  // ----------------------------------------------------------------- what a follower gets

  function Picked(rs: seq<Record>, kept: seq<bool>): (r: seq<Record>)
    requires |kept| == |rs|
    ensures |r| <= |rs|
  {
    if rs == [] then []
    else
      var n := |rs| - 1;
      Picked(rs[..n], kept[..n]) + (if kept[n] then [rs[n]] else [])
  }

  lemma {:induction false} PickedAll(rs: seq<Record>, kept: seq<bool>)
    requires |kept| == |rs|
    ensures Picked(rs, kept) == rs <==> forall k :: 0 <= k < |kept| ==> kept[k]
  {
    if rs != [] {
      var n := |rs| - 1;
      PickedAll(rs[..n], kept[..n]);
      if kept[n] {
        assert rs == rs[..n] + [rs[n]];
        assert Picked(rs, kept)[..|Picked(rs, kept)| - 1] == Picked(rs[..n], kept[..n]);
      }
    }
  }

  /** The first `yes` of `yes + no` records. */
  function Front(yes: nat, no: nat): seq<bool> {
    seq(yes + no, i => i < yes)
  }

  lemma {:induction false} PickedMore(rs: seq<Record>, kept: seq<bool>, more: seq<Record>, yes: nat)
    requires |kept| == |rs| && yes <= |more|
    ensures Picked(rs + more, kept + Front(yes, |more| - yes)) == Picked(rs, kept) + more[..yes]
    decreases |more|
  {
    var all := kept + Front(yes, |more| - yes);
    if more == [] {
      assert rs + more == rs && all == kept;
    } else {
      var n := |more| - 1;
      assert (rs + more)[..|rs| + n] == rs + more[..n];
      if yes <= n {
        assert all[..|rs| + n] == kept + Front(yes, n - yes);
        PickedMore(rs, kept, more[..n], yes);
        assert more[..n][..yes] == more[..yes];
      } else {
        assert all[..|rs| + n] == kept + Front(n, 0);
        PickedMore(rs, kept, more[..n], n);
        assert more[..n][..n] + [more[n]] == more[..yes];
      }
    }
  }

  /** Record k and those before it in the same drain could be read. */
  ghost predicate ReadSoFar(rs: seq<Record>, turn: seq<nat>, turns: seq<Turn>, k: int)
    requires AllStorable(rs) && |turn| == |rs| && 0 <= k < |rs|
    requires forall j :: 0 <= j < |turn| ==> turn[j] < |turns|
  {
    forall j :: 0 <= j <= k && turn[j] == turn[k] ==> ReadOk(rs, j, turns[turn[j]].readable)
  }

  /** `turn` says which drain came to each record, `kept` whether it was emitted. */
  ghost predicate Followed(rs: seq<Record>, turn: seq<nat>, turns: seq<Turn>, kept: seq<bool>) {
    && AllStorable(rs) && |kept| == |turn| == |rs| && (forall j :: 0 <= j < |turn| ==> turn[j] < |turns|)
    && forall k :: 0 <= k < |rs| ==> (kept[k] <==> ReadSoFar(rs, turn, turns, k))
  }

  ghost predicate NoReadFailed(rs: seq<Record>, turn: seq<nat>, turns: seq<Turn>) {
    && AllStorable(rs) && |turn| == |rs| && (forall j :: 0 <= j < |turn| ==> turn[j] < |turns|)
    && forall k :: 0 <= k < |rs| ==> ReadOk(rs, k, turns[turn[k]].readable)
  }

  /** A follower that came to the end has everything exactly if no read failed. */
  lemma AllIfNoReadFailed(rs: seq<Record>, turn: seq<nat>, turns: seq<Turn>, kept: seq<bool>)
    requires Followed(rs, turn, turns, kept)
    ensures Picked(rs, kept) == rs <==> NoReadFailed(rs, turn, turns)
  {
    hide Start;
    PickedAll(rs, kept);
    if NoReadFailed(rs, turn, turns) {
      assert forall k :: 0 <= k < |rs| ==> ReadSoFar(rs, turn, turns, k);
    } else {
      var k :| 0 <= k < |rs| && !ReadOk(rs, k, turns[turn[k]].readable);
      assert !ReadSoFar(rs, turn, turns, k);
    }
  }

  /** One more drain. */
  lemma FollowedMore(rs: seq<Record>, turn: seq<nat>, turns: seq<Turn>, kept: seq<bool>, rs': seq<Record>, i: nat,
                     upTo: nat)
    requires Followed(rs, turn, turns, kept) && i < |turns| && forall j :: 0 <= j < |turn| ==> turn[j] < i
    requires AllStorable(rs') && rs <= rs' && |rs| <= upTo <= |rs'|
    requires forall k :: |rs| <= k < upTo ==> ReadOk(rs', k, turns[i].readable)
    requires upTo < |rs'| ==> !ReadOk(rs', upTo, turns[i].readable)
    ensures var more := |rs'| - |rs|;
      Followed(rs', turn + seq(more, _ => i), turns, kept + Front(upTo - |rs|, |rs'| - upTo))
  {
    var turn' := turn + seq(|rs'| - |rs|, _ => i);
    forall j | 0 <= j < |rs|
      ensures ReadOk(rs', j, turns[turn[j]].readable) == ReadOk(rs, j, turns[turn[j]].readable)
    {
      StartStable(rs, rs', j);
    }
    hide ReadOk;
    forall k | 0 <= k < |rs|
      ensures ReadSoFar(rs', turn', turns, k) == ReadSoFar(rs, turn, turns, k)
    {
      assert forall j :: 0 <= j <= k ==> turn'[j] == turn[j];
    }
    forall k | |rs| <= k < |rs'|
      ensures ReadSoFar(rs', turn', turns, k) <==> k < upTo
    {
      if k >= upTo {
        assert turn'[upTo] == turn'[k];
      }
    }
  }

  /** The owner finishes in some turn before the caller cancels, and the follower gets to look
      again if something came after that turn's drain. */
  ghost predicate Ends(turns: seq<Turn>) {
    exists i :: 0 <= i < |turns| && turns[i].finish && (forall j :: 0 <= j < i ==> !turns[j].cancel)
                && (turns[i].after == [] || (!turns[i].cancel && i + 1 < |turns|))
  }

  ghost predicate OwnerIdle(turns: seq<Turn>) {
    forall i :: 0 <= i < |turns| ==> turns[i].before == [] && turns[i].after == []
  }

  /** Follows a spill while its owner appends. True: the owner is finished and every drained
      record was emitted up to the first that could not be read; so everything the file kept was
      emitted exactly if no read failed. */
  method FollowSpill(spill: Spill, turns: seq<Turn>)
    returns (caughtUp: bool, finished: bool, emitted: seq<Record>,
             ghost drained: seq<Record>, ghost turn: seq<nat>, ghost kept: seq<bool>)
    requires spill.Valid()
    modifies spill
    ensures spill.Valid() && drained <= spill.records
    ensures Followed(drained, turn, turns, kept) && emitted == Picked(drained, kept)
    ensures caughtUp ==> finished && drained == spill.records
    ensures caughtUp ==> (emitted == spill.records <==> NoReadFailed(spill.records, turn, turns))
    ensures spill.broken || Log(spill.records, spill.ended) == KeptAll(spill.cap, spill.appended)
    ensures Ends(turns) ==> caughtUp
    ensures old(spill.records) <= spill.records
    ensures OwnerIdle(turns) ==> spill.records == old(spill.records)
  {
    hide KeptAll, EncodeAll, AllStorable, Size, Start, Picked, ReadOk, ReadSoFar, NoReadFailed;
    finished, emitted, drained, turn, kept := false, [], [], [], [];
    var offset := 0;
    StartEnd(spill.records);
    NoneFollowed(turns);
    for i := 0 to |turns|
      invariant spill.Valid() && drained <= spill.records && offset == Start(spill.records, |drained|)
      invariant Followed(drained, turn, turns, kept) && emitted == Picked(drained, kept)
      invariant forall j :: 0 <= j < |turn| ==> turn[j] < i
      invariant old(spill.records) <= spill.records && (OwnerIdle(turns) ==> spill.records == old(spill.records))
      invariant forall j :: 0 <= j < i ==> !turns[j].cancel
      invariant forall j :: 0 <= j < i && turns[j].finish ==> finished && j == i - 1 && turns[j].after != []
    {
      ghost var records0 := spill.records;
      Owner(spill, if finished then [] else turns[i].before);
      StartStable(records0, spill.records, |drained|);
      var some;
      ghost var upTo;
      some, offset, upTo := spill.Drain(offset, |drained|, turns[i].readable);
      emitted := emitted + some;
      drained, turn, kept := DrainedMore(drained, turn, turns, kept, spill.records, i, upTo);
      Owner(spill, if finished then [] else turns[i].after);
      finished := finished || turns[i].finish;
      StartStable(drained, spill.records, |drained|);
      if finished && offset >= spill.written {
        CaughtUp(spill.records, |drained|);
        AllIfNoReadFailed(drained, turn, turns, kept);
        caughtUp := true;
        return;
      }
      if turns[i].cancel {
        caughtUp := false;
        return;
      }
    }
    caughtUp := false;
  }

  lemma NoneFollowed(turns: seq<Turn>)
    ensures Followed([], [], turns, []) && Picked([], []) == []
  {
  }

  lemma DrainedMore(rs: seq<Record>, turn: seq<nat>, turns: seq<Turn>, kept: seq<bool>, rs': seq<Record>, i: nat,
                    upTo: nat)
    returns (drained: seq<Record>, turn': seq<nat>, kept': seq<bool>)
    requires Followed(rs, turn, turns, kept) && i < |turns| && forall j :: 0 <= j < |turn| ==> turn[j] < i
    requires AllStorable(rs') && rs <= rs' && |rs| <= upTo <= |rs'|
    requires forall k :: |rs| <= k < upTo ==> ReadOk(rs', k, turns[i].readable)
    requires upTo < |rs'| ==> !ReadOk(rs', upTo, turns[i].readable)
    ensures drained == rs' && Followed(rs', turn', turns, kept') && forall j :: 0 <= j < |turn'| ==> turn'[j] <= i
    ensures Picked(rs', kept') == Picked(rs, kept) + rs'[|rs|..upTo]
  {
    hide Picked, ReadOk, ReadSoFar, AllStorable;
    FollowedMore(rs, turn, turns, kept, rs', i, upTo);
    drained, turn', kept' := rs', turn + seq(|rs'| - |rs|, _ => i), kept + Front(upTo - |rs|, |rs'| - upTo);
    PickedMore(rs, kept, rs'[|rs|..], upTo - |rs|);
    assert rs + rs'[|rs|..] == rs';
    assert rs'[|rs|..][..upTo - |rs|] == rs'[|rs|..upTo];
  }

  /** One failed read loses its record and every later one of the same drain. */
  lemma LostAfterFailedRead(rs: seq<Record>, turn: seq<nat>, turns: seq<Turn>, kept: seq<bool>, k: nat)
    requires Followed(rs, turn, turns, kept) && k < |rs| && !ReadOk(rs, k, turns[turn[k]].readable)
    ensures forall m :: k <= m < |rs| && turn[m] == turn[k] ==> !kept[m]
    ensures Picked(rs, kept) != rs
  {
    hide ReadOk;
    forall m | k <= m < |rs| && turn[m] == turn[k]
      ensures !kept[m]
    {
      assert !ReadSoFar(rs, turn, turns, m);
    }
    PickedAll(rs, kept);
  }

  /** And the follower still answers true: one record, one drain that cannot read. */
  method LossIsSilent(text: seq<Byte>) returns (spill: Spill, caughtUp: bool, emitted: seq<Record>)
    requires |text| <= MAX_TEXT
    ensures spill.records == [Record(Line, text)] && caughtUp && emitted == []
  {
    spill := new Spill(CAP);
    var r := Record(Line, text);
    spill.Append(Line, text, true, true, []);
    assert KeptAll(CAP, [r]) == Log([r], false) by {
      assert KeptAll(CAP, []) == Log([], false);
      assert [r][..0] == [];
    }
    ghost var drained, turn, kept;
    var finished;
    var turns := [Turn([], _ => false, [], true, false)];
    assert Ends(turns) by {
      assert turns[0].finish;
    }
    caughtUp, finished, emitted, drained, turn, kept := FollowSpill(spill, turns);
    LostAfterFailedRead(drained, turn, turns, kept, 0);
    assert Picked(drained[..0], kept[..0]) == [];
  }
}
