/** The hash-chained audit trail: writer, restart and verifier. The digest of the canonical record
    body (SHA-256, section 6.2 of FIPS 180-4) is a parameter; nothing is assumed of it here. */
module AuditTrail {
  import opened Common

  type Payload = string

  /** The signed portion of a record. */
  datatype Body = Body(sequence: nat, payload: Payload, previousHash: string)

  datatype Record = Record(body: Body, recordHash: string)

  /** A line of the trail: blank, unparsable, or a record. */
  datatype Line = Blank | Malformed | Written(record: Record)

  type Digest = Body -> string

  /** What the first record chains to: 64 zeros. */
  function Genesis(): string { seq(64, _ => '0') }

  function Records(lines: seq<Line>): seq<Record> {
    if lines == [] then []
    else
      var rest := Records(lines[..|lines| - 1]);
      match lines[|lines| - 1]
      case Written(r) => rest + [r]
      case _ => rest
  }

  ghost predicate AllParse(lines: seq<Line>) {
    forall i :: 0 <= i < |lines| ==> lines[i] != Malformed
  }

  function HashBefore(rs: seq<Record>, i: nat): string
    requires i <= |rs|
  {
    if i == 0 then Genesis() else rs[i - 1].recordHash
  }

  /** Record `i` is where it says it is, points at its predecessor and carries its own digest. */
  ghost predicate Linked(h: Digest, rs: seq<Record>, i: nat) {
    && i < |rs| && rs[i].body.sequence == i
    && rs[i].body.previousHash == HashBefore(rs, i)
    && rs[i].recordHash == h(rs[i].body)
  }

  ghost predicate Chained(h: Digest, rs: seq<Record>) {
    forall i: nat :: i < |rs| ==> Linked(h, rs, i)
  }

  ghost predicate Verifies(h: Digest, lines: seq<Line>) {
    AllParse(lines) && Chained(h, Records(lines))
  }

  lemma RecordsAppend(lines: seq<Line>, l: Line)
    ensures Records(lines + [l]) == Records(lines) + (if l.Written? then [l.record] else [])
  {
    assert (lines + [l])[..|lines|] == lines;
  }

  // ----- the verifier -----

  datatype Verification = Verification(valid: bool, records: nat, firstInvalid: Option<nat>)

  /** The line at which the file first stops verifying. */
  ghost predicate BreaksAt(h: Digest, lines: seq<Line>, k: nat) {
    k < |lines| && Verifies(h, lines[..k]) && !Verifies(h, lines[..k + 1])
  }

  predicate LineOk(h: Digest, l: Line, expected: nat, previousHash: string) {
    match l
    case Blank => true
    case Malformed => false
    case Written(r) => r.body.sequence == expected && r.body.previousHash == previousHash && h(r.body) == r.recordHash
  }

  /** Given a sound prefix, the next line keeps it sound exactly when the verifier's checks pass. */
  lemma NextLine(h: Digest, lines: seq<Line>, k: nat)
    requires k < |lines| && Verifies(h, lines[..k])
    ensures var rs := Records(lines[..k]);
            && (Verifies(h, lines[..k + 1]) <==> LineOk(h, lines[k], |rs|, HashBefore(rs, |rs|)))
            && Records(lines[..k + 1]) == rs + (if lines[k].Written? then [lines[k].record] else [])
  {
    assert lines[..k + 1] == lines[..k] + [lines[k]];
    RecordsAppend(lines[..k], lines[k]);
    if lines[k].Written? {
      ExtendChain(h, Records(lines[..k]), lines[k].record);
    } else if lines[k] == Malformed {
      assert lines[..k + 1][k] == Malformed;
    }
  }

  /** Accepts exactly the existing files whose every line parses and whose records chain from the
      genesis hash; otherwise it counts the records before the first line that breaks the chain. */
  method VerifyChain(h: Digest, file: Option<seq<Line>>) returns (v: Verification)
    ensures v.valid <==> file.Some? && Verifies(h, file.value)
    ensures v.valid ==> v.records == |Records(file.value)|
    ensures !v.valid && file.Some? ==>
              exists k: nat :: BreaksAt(h, file.value, k) && v.records == |Records(file.value[..k])|
  {
    if file.None? {
      return Verification(false, 0, None);
    }
    var lines := file.value;
    var previousHash, expected, count := Genesis(), 0, 0;
    var i := 0;
    while i < |lines|
      invariant 0 <= i <= |lines|
      invariant Verifies(h, lines[..i])
      invariant count == expected == |Records(lines[..i])|
      invariant previousHash == HashBefore(Records(lines[..i]), count)
    {
      NextLine(h, lines, i);
      if !LineOk(h, lines[i], expected, previousHash) {
        BrokenHere(h, lines, i);
        assert BreaksAt(h, lines, i);
        var at := if lines[i].Written? then lines[i].record.body.sequence else expected;
        return Verification(false, count, Some(at));
      }
      if lines[i].Written? {
        previousHash, expected, count := lines[i].record.recordHash, expected + 1, count + 1;
      }
      i := i + 1;
    }
    assert lines[..i] == lines;
    return Verification(true, count, None);
  }

  lemma LinkInPrefix(h: Digest, rs: seq<Record>, all: seq<Record>, i: nat)
    requires rs <= all && i < |rs|
    ensures Linked(h, all, i) <==> Linked(h, rs, i)
  {
    assert HashBefore(all, i) == HashBefore(rs, i);
  }

  lemma ExtendChain(h: Digest, rs: seq<Record>, r: Record)
    ensures Chained(h, rs + [r]) <==>
            && Chained(h, rs)
            && r.body.sequence == |rs| && r.body.previousHash == HashBefore(rs, |rs|) && r.recordHash == h(r.body)
  {
    var all := rs + [r];
    assert all[|rs|] == r && HashBefore(all, |rs|) == HashBefore(rs, |rs|);
    assert Linked(h, all, |rs|) <==>
           r.body.sequence == |rs| && r.body.previousHash == HashBefore(rs, |rs|) && r.recordHash == h(r.body);
    forall i: nat | i < |rs|
      ensures Linked(h, all, i) <==> Linked(h, rs, i)
    {
      LinkInPrefix(h, rs, all, i);
    }
  }

  /** A prefix that fails is never repaired by what follows it. */
  lemma BrokenHere(h: Digest, lines: seq<Line>, i: nat)
    requires i < |lines| && !Verifies(h, lines[..i + 1])
    ensures !Verifies(h, lines)
  {
    if Verifies(h, lines) {
      PrefixVerifies(h, lines, i + 1);
    }
  }

  lemma {:induction false} PrefixVerifies(h: Digest, lines: seq<Line>, k: nat)
    requires Verifies(h, lines) && k <= |lines|
    ensures Verifies(h, lines[..k]) && Records(lines[..k]) <= Records(lines)
    decreases |lines|
  {
    if k < |lines| {
      var n := |lines| - 1;
      assert lines == lines[..n] + [lines[n]];
      RecordsAppend(lines[..n], lines[n]);
      if lines[n].Written? {
        ExtendChain(h, Records(lines[..n]), lines[n].record);
      }
      assert lines[..n][..k] == lines[..k];
      PrefixVerifies(h, lines[..n], k);
    } else {
      assert lines[..k] == lines;
    }
  }

  // ----- the writer -----

  /** A sequence number, or one before the first. */
  type Sequence = i: int | i >= -1 witness -1

  /** The process side of the trail: what it believes the head is, and whether it has looked yet. */
  datatype Writer = Writer(sequence: Sequence, lastHash: string, resumed: bool)

  function NewWriter(): Writer { Writer(-1, Genesis(), false) }

  function LastNonBlank(lines: seq<Line>): Line {
    if lines == [] then Blank
    else if lines[|lines| - 1] != Blank then lines[|lines| - 1]
    else LastNonBlank(lines[..|lines| - 1])
  }

  /** Picks the head up from the file the first time. An unparsable last line is an error, but the
      writer has looked by then and will not look again. */
  function Resume(w: Writer, lines: seq<Line>): (Writer, bool) {
    if w.resumed then (w, true)
    else
      match LastNonBlank(lines)
      case Blank => (w.(resumed := true), true)
      case Malformed => (w.(resumed := true), false)
      case Written(r) => (Writer(r.body.sequence, r.recordHash, true), true)
  }

  function NextRecord(h: Digest, w: Writer, payload: Payload): Record {
    var body := Body(w.sequence + 1, payload, w.lastHash);
    Record(body, h(body))
  }

  /** A file that may not exist yet. */
  type File = Option<seq<Line>>

  /** One attempt to record: the file, the writer and what was written, if anything. */
  function Append(h: Digest, file: File, w: Writer, payload: Payload): (File, Writer, Option<Record>) {
    var (w1, ok) := Resume(w, file.GetOr([]));
    if !ok then (file, w1, None)
    else
      var r := NextRecord(h, w1, payload);
      (Some(file.GetOr([]) + [Written(r)]), Writer(r.body.sequence, r.recordHash, true), Some(r))
  }

  /** The head the writer believes in is the head of the file, once it has looked. */
  ghost predicate InStep(w: Writer, lines: seq<Line>) {
    var rs := Records(lines);
    if w.resumed then w.sequence == |rs| - 1 && w.lastHash == HashBefore(rs, |rs|)
    else w == NewWriter()
  }

  lemma {:induction false} HeadOfFile(lines: seq<Line>)
    requires AllParse(lines)
    ensures LastNonBlank(lines) ==
            if Records(lines) == [] then Blank else Written(Records(lines)[|Records(lines)| - 1])
  {
    if lines != [] {
      HeadOfFile(lines[..|lines| - 1]);
    }
  }

  lemma ResumeIsInStep(h: Digest, w: Writer, lines: seq<Line>)
    requires Verifies(h, lines) && InStep(w, lines)
    ensures Resume(w, lines).1 && Resume(w, lines).0.resumed && InStep(Resume(w, lines).0, lines)
  {
    HeadOfFile(lines);
    var rs := Records(lines);
    if rs != [] {
      assert Linked(h, rs, |rs| - 1);
    }
  }

  /** On a trail that verifies, recording appends one chained record and the trail still verifies. */
  lemma AppendStaysInStep(h: Digest, file: File, w: Writer, payload: Payload)
    requires Verifies(h, file.GetOr([])) && InStep(w, file.GetOr([]))
    ensures var (file', w', r) := Append(h, file, w, payload);
            && r.Some? && file' == Some(file.GetOr([]) + [Written(r.value)])
            && Verifies(h, file'.value) && InStep(w', file'.value)
            && Records(file'.value) == Records(file.GetOr([])) + [r.value]
            && r.value.body.payload == payload && r.value.body.sequence == |Records(file.GetOr([]))| == w'.sequence
  {
    var lines := file.GetOr([]);
    ResumeIsInStep(h, w, lines);
    var r := NextRecord(h, Resume(w, lines).0, payload);
    RecordsAppend(lines, Written(r));
    ExtendChain(h, Records(lines), r);
  }

  lemma BrokenStaysBroken(h: Digest, lines: seq<Line>, l: Line)
    requires !Verifies(h, lines)
    ensures !Verifies(h, lines + [l])
  {
    assert (lines + [l])[..|lines|] == lines;
    if Verifies(h, lines + [l]) {
      PrefixVerifies(h, lines + [l], |lines|);
    }
  }

  /** One attempt to record changes the verdict on no file, whole or broken, and is refused exactly when a
      writer that has not looked yet finds an unreadable last line. On a whole trail the writer is in step. */
  lemma AppendKeepsTheVerdict(h: Digest, file: File, w: Writer, payload: Payload)
    requires Verifies(h, file.GetOr([])) ==> InStep(w, file.GetOr([]))
    ensures var (file', w', r) := Append(h, file, w, payload);
            && (r.None? <==> !w.resumed && LastNonBlank(file.GetOr([])) == Malformed) && w'.resumed
            && file' == (if r.None? then file else Some(file.GetOr([]) + [Written(r.value)]))
            && (Verifies(h, file'.GetOr([])) <==> Verifies(h, file.GetOr([])))
            && (Verifies(h, file'.GetOr([])) ==> InStep(w', file'.GetOr([])))
  {
    var lines := file.GetOr([]);
    var (file', w', r) := Append(h, file, w, payload);
    if Verifies(h, lines) {
      AppendStaysInStep(h, file, w, payload);
    } else if r.Some? {
      BrokenStaysBroken(h, lines, Written(r.value));
    }
  }

  /** A bad tail is refused exactly once: of a new process's two attempts on any file the first fails if and
      only if the last line is unreadable, the second always writes, and the file verifies afterwards if
      and only if it did before. Behind a bad tail that record starts a second chain from genesis. */
  lemma BadTailIsRefusedExactlyOnce(h: Digest, file: File, first: Payload, second: Payload)
    ensures var (file1, w1, r1) := Append(h, file, NewWriter(), first);
            var (file2, w2, r2) := Append(h, file1, w1, second);
            && (r1.None? <==> LastNonBlank(file.GetOr([])) == Malformed) && r2.Some?
            && (Verifies(h, file2.GetOr([])) <==> Verifies(h, file.GetOr([])))
            && (r1.None? ==> file1 == file && r2.value.body == Body(0, second, Genesis()))
  {
    AppendKeepsTheVerdict(h, file, NewWriter(), first);
    var (file1, w1, _) := Append(h, file, NewWriter(), first);
    AppendKeepsTheVerdict(h, file1, w1, second);
  }

  class RiskAuditTrail {
    var file: File
    var sequence: Sequence
    var lastHash: string
    var resumed: bool
    const h: Digest

    ghost function Head(): Writer
      reads this
    {
      Writer(sequence, lastHash, resumed)
    }

    ghost predicate Valid()
      reads this
    {
      Verifies(h, file.GetOr([])) && InStep(Head(), file.GetOr([]))
    }

    /** A process opening the trail; it reads nothing until the first record. */
    constructor (h: Digest, file: File)
      ensures this.h == h && this.file == file && Head() == NewWriter()
      ensures Verifies(h, file.GetOr([])) ==> Valid()
    {
      this.h, this.file := h, file;
      sequence, lastHash, resumed := -1, Genesis(), false;
    }

    /** Records one decision, or fails on a tail it cannot read; a trail that verifies goes on verifying. */
    method AppendRecord(payload: Payload) returns (r: Option<Record>)
      modifies this
      ensures (file, Head(), r) == Append(h, old(file), old(Head()), payload)
      ensures old(Valid()) ==> Valid() && r.Some? && file == Some(old(file.GetOr([])) + [Written(r.value)])
    {
      if Verifies(h, file.GetOr([])) && InStep(Head(), file.GetOr([])) {
        AppendStaysInStep(h, file, Head(), payload);
      }
      if !resumed {
        resumed := true;
        var head := LastNonBlank(file.GetOr([]));
        if head.Malformed? {
          return None;
        }
        if head.Written? {
          sequence, lastHash := head.record.body.sequence, head.record.recordHash;
        }
      }
      var next := NextRecord(h, Writer(sequence, lastHash, resumed), payload);
      file := Some(file.GetOr([]) + [Written(next)]);
      sequence, lastHash := next.body.sequence, next.recordHash;
      r := Some(next);
    }
  }
}

/** Anchors published outside the trail, the cross-check against them, and what acceptance proves. */
module AuditAnchors {
  import opened Common
  import opened AuditTrail
  import opened Sorting

  datatype Anchor = Anchor(sequence: nat, headHash: string)

  /** The current head of the trail; nothing to commit to on an empty one, nor on one whose last line
      cannot be read, which is an error besides. */
  function HeadAnchor(lines: seq<Line>): Option<Anchor> {
    match LastNonBlank(lines)
    case Written(r) => Some(Anchor(r.body.sequence, r.recordHash))
    case _ => None
  }

  ghost predicate Matches(rs: seq<Record>, a: Anchor) {
    a.sequence < |rs| && rs[a.sequence].recordHash == a.headHash
  }

  // ----- verification -----

  datatype AnchorVerification = AnchorVerification(valid: bool, chain: Verification, divergedAt: Option<nat>)

  function BySequence(a: Anchor, b: Anchor): bool { a.sequence <= b.sequence }

  lemma BySequenceTotal()
    ensures Total(BySequence)
  {
  }

  method HashesBySequence(h: Digest, lines: seq<Line>) returns (hashes: map<nat, string>)
    requires Verifies(h, lines)
    ensures forall s: nat :: s in hashes <==> s < |Records(lines)|
    ensures forall s: nat :: s in hashes ==> hashes[s] == Records(lines)[s].recordHash
  {
    hashes := map[];
    var i := 0;
    while i < |lines|
      invariant 0 <= i <= |lines|
      invariant forall s: nat :: s in hashes <==> s < |Records(lines[..i])|
      invariant forall s: nat :: s in hashes ==> hashes[s] == Records(lines[..i])[s].recordHash
    {
      PrefixVerifies(h, lines, i);
      PrefixVerifies(h, lines, i + 1);
      NextLine(h, lines, i);
      if lines[i].Written? {
        hashes := hashes[lines[i].record.body.sequence := lines[i].record.recordHash];
      }
      i := i + 1;
    }
    assert lines[..i] == lines;
  }

  lemma LowestFirst(sorted: seq<Anchor>, i: nat)
    requires Sorted(sorted, BySequence) && i < |sorted|
    ensures forall j :: i <= j < |sorted| ==> sorted[i].sequence <= sorted[j].sequence
  {
    assert forall j :: i < j < |sorted| ==> BySequence(sorted[i], sorted[j]);
  }

  /** When every anchor before place `i` of the sorted list matches, so does every anchor of a lower sequence. */
  lemma EarlierMatch(rs: seq<Record>, anchors: seq<Anchor>, sorted: seq<Anchor>, i: nat)
    requires Sorted(sorted, BySequence) && i < |sorted| && forall a :: a in anchors ==> a in sorted
    requires forall j :: 0 <= j < i ==> Matches(rs, sorted[j])
    ensures forall a :: a in anchors && a.sequence < sorted[i].sequence ==> Matches(rs, a)
  {
    LowestFirst(sorted, i);
    forall a | a in anchors && a.sequence < sorted[i].sequence
      ensures Matches(rs, a)
    {
      var j :| 0 <= j < |sorted| && sorted[j] == a;
    }
  }

  /** Accepts exactly when the chain verifies, there is at least one anchor, and every anchor names
      the hash the file holds at its sequence; otherwise it points at the lowest anchor that fails. */
  method VerifyWithAnchors(h: Digest, file: Option<seq<Line>>, anchors: seq<Anchor>) returns (v: AnchorVerification)
    ensures v.valid <==>
            && file.Some? && Verifies(h, file.value) && anchors != []
            && forall a :: a in anchors ==> Matches(Records(file.value), a)
    ensures !v.valid && file.Some? && Verifies(h, file.value) && anchors != [] ==>
              && v.divergedAt.Some?
              && (exists a :: a in anchors && a.sequence == v.divergedAt.value && !Matches(Records(file.value), a))
              && (forall a :: a in anchors && a.sequence < v.divergedAt.value ==> Matches(Records(file.value), a))
  {
    var chain := VerifyChain(h, file);
    if !chain.valid {
      return AnchorVerification(false, chain, chain.firstInvalid);
    }
    if anchors == [] {
      return AnchorVerification(false, chain, None);
    }
    var hashes := HashesBySequence(h, file.value);
    BySequenceTotal();
    SortSorts(anchors, BySequence);
    SortKeeps(anchors, BySequence);
    var sorted := Sort(anchors, BySequence);
    var i := 0;
    while i < |sorted|
      invariant 0 <= i <= |sorted|
      invariant forall j :: 0 <= j < i ==> Matches(Records(file.value), sorted[j])
    {
      var a := sorted[i];
      if a.sequence !in hashes || hashes[a.sequence] != a.headHash {
        EarlierMatch(Records(file.value), anchors, sorted, i);
        assert a in anchors;
        return AnchorVerification(false, chain, Some(a.sequence));
      }
      i := i + 1;
    }
    return AnchorVerification(true, chain, None);
  }

  // ----- what acceptance proves -----

  /** Two different bodies, one in each trail at the same place, with the same digest. */
  ghost predicate Collision(h: Digest, rs: seq<Record>, os: seq<Record>) {
    exists i :: 0 <= i < |rs| && i < |os| && rs[i].body != os[i].body && h(rs[i].body) == h(os[i].body)
  }

  /** Two chained trails with the same hash at `m` are the same up to `m`, or exhibit a collision. */
  lemma {:induction false} SameHashSamePast(h: Digest, rs: seq<Record>, os: seq<Record>, m: nat)
    requires Chained(h, rs) && Chained(h, os) && m < |rs| && m < |os| && rs[m].recordHash == os[m].recordHash
    ensures rs[..m + 1] == os[..m + 1] || Collision(h, rs, os)
  {
    assert Linked(h, rs, m) && Linked(h, os, m);
    if rs[m].body == os[m].body && m > 0 {
      SameHashSamePast(h, rs, os, m - 1);
      assert rs[..m + 1] == rs[..m] + [rs[m]] && os[..m + 1] == os[..m] + [os[m]];
    }
  }

  /** The highest anchored sequence, -1 when there is none. */
  ghost function Highest(anchors: seq<Anchor>): int {
    if anchors == [] then -1
    else
      var rest := Highest(anchors[..|anchors| - 1]);
      if anchors[|anchors| - 1].sequence > rest then anchors[|anchors| - 1].sequence else rest
  }

  lemma {:induction false} HighestIsOne(anchors: seq<Anchor>) returns (a: Anchor)
    requires anchors != []
    ensures a in anchors && a.sequence == Highest(anchors)
  {
    var n := |anchors| - 1;
    a := anchors[n];
    if n > 0 && anchors[n].sequence <= Highest(anchors[..n]) {
      a := HighestIsOne(anchors[..n]);
    }
  }

  /** Anchor soundness: a file that passes against anchors published from an original trail holds
      the original's records up to the highest anchor, unless the digest collides on the two files.
      Every rewrite, edit or truncation at or below that point is therefore rejected. */
  lemma AnchorSoundness(h: Digest, file: seq<Line>, original: seq<Record>, anchors: seq<Anchor>)
    requires Chained(h, original) && anchors != []
    requires forall a :: a in anchors ==> Matches(original, a)
    requires Verifies(h, file) && forall a :: a in anchors ==> Matches(Records(file), a)
    ensures var m := Highest(anchors);
            && 0 <= m < |original| && m < |Records(file)|
            && (Records(file)[..m + 1] == original[..m + 1] || Collision(h, Records(file), original))
  {
    var a := HighestIsOne(anchors);
    assert Matches(original, a) && Matches(Records(file), a);
    SameHashSamePast(h, Records(file), original, a.sequence);
  }

  // ----- runs of the writer and the publisher -----

  /** File, process state of the writer and the publisher, and the anchors the sink keeps. */
  datatype Journal = Journal(file: File, writer: Writer, anchors: seq<Anchor>, lastAnchored: int) {
    function Lines(): seq<Line> { file.GetOr([]) }
  }

  datatype Event = Recorded(payload: Payload) | PublishNow | Restart

  function Published(j: Journal): Journal {
    match HeadAnchor(j.Lines())
    case Some(a) => j.(anchors := j.anchors + [a], lastAnchored := a.sequence)
    case None => j
  }

  function MaybePublished(j: Journal, every: nat, sequence: nat): Journal {
    if sequence - j.lastAnchored < every then j else Published(j)
  }

  /** Decides when to publish; `anchors` is what its sink has kept. */
  class AuditAnchorPublisher {
    var anchors: seq<Anchor>
    var lastAnchored: int
    const every: nat

    ghost function Over(file: File, writer: Writer): Journal
      reads this
    {
      Journal(file, writer, anchors, lastAnchored)
    }

    constructor (anchors: seq<Anchor>, every: nat)
      requires every > 0
      ensures this.anchors == anchors && lastAnchored == -1 && this.every == every
    {
      this.anchors, this.every, lastAnchored := anchors, every, -1;
    }

    method PublishNow(file: File, ghost writer: Writer) returns (a: Option<Anchor>)
      modifies this
      ensures a == HeadAnchor(file.GetOr([])) && Over(file, writer) == Published(old(Over(file, writer)))
    {
      a := HeadAnchor(file.GetOr([]));
      if a.None? {
        return;
      }
      anchors := anchors + [a.value];
      lastAnchored := a.value.sequence;
    }

    method MaybePublish(file: File, sequence: nat, ghost writer: Writer) returns (a: Option<Anchor>)
      modifies this
      ensures a == (if sequence - old(lastAnchored) < every then None else HeadAnchor(file.GetOr([])))
      ensures Over(file, writer) == MaybePublished(old(Over(file, writer)), every, sequence)
    {
      if sequence - lastAnchored < every {
        return None;
      }
      a := PublishNow(file, writer);
    }
  }

  function Appended(h: Digest, j: Journal, payload: Payload): (Journal, Option<Record>) {
    var (file, w, r) := Append(h, j.file, j.writer, payload);
    (j.(file := file, writer := w), r)
  }

  /** The service records a decision and, if that went through, offers the head to the publisher. A
      restart forgets both processes' state; file and sink stay. */
  function Step(h: Digest, every: nat, j: Journal, e: Event): Journal {
    match e
    case Recorded(payload) =>
      var (j', r) := Appended(h, j, payload);
      if r.None? then j' else MaybePublished(j', every, r.value.body.sequence)
    case PublishNow => Published(j)
    case Restart => j.(writer := NewWriter(), lastAnchored := -1)
  }

  function Run(h: Digest, every: nat, j: Journal, es: seq<Event>): Journal {
    if es == [] then j else Step(h, every, Run(h, every, j, es[..|es| - 1]), es[|es| - 1])
  }

  function CountRecorded(es: seq<Event>): nat {
    if es == [] then 0 else CountRecorded(es[..|es| - 1]) + (if es[|es| - 1].Recorded? then 1 else 0)
  }

  /** The trail verifies, the writer is in step, and every anchor names a record of the trail. */
  ghost predicate Sound(h: Digest, j: Journal) {
    && Verifies(h, j.Lines()) && InStep(j.writer, j.Lines())
    && (forall a :: a in j.anchors ==> Matches(Records(j.Lines()), a))
    && -1 <= j.lastAnchored <= Highest(j.anchors)
  }

  /** Fewer than `every` records lie beyond the highest anchor. */
  ghost predicate Covered(every: nat, j: Journal) {
    |Records(j.Lines())| - 1 - Highest(j.anchors) < every
  }

  lemma AppendedStaysSound(h: Digest, j: Journal, payload: Payload)
    requires Sound(h, j)
    ensures var (j', r) := Appended(h, j, payload);
            && Sound(h, j') && j'.anchors == j.anchors && j'.lastAnchored == j.lastAnchored && j'.file.Some?
            && |Records(j'.Lines())| == |Records(j.Lines())| + 1
            && r.Some? && r.value.body.sequence == |Records(j.Lines())|
  {
    AppendStaysInStep(h, j.file, j.writer, payload);
    var rs' := Records(Appended(h, j, payload).0.Lines());
    forall a | a in j.anchors
      ensures Matches(rs', a)
    {
      assert Matches(Records(j.Lines()), a);
    }
  }

  lemma HighestAppend(anchors: seq<Anchor>, a: Anchor)
    ensures Highest(anchors + [a]) == if a.sequence > Highest(anchors) then a.sequence else Highest(anchors)
  {
    assert (anchors + [a])[..|anchors|] == anchors;
  }

  /** The head of a verified trail is its last record. */
  lemma HeadMatches(h: Digest, lines: seq<Line>)
    requires Verifies(h, lines)
    ensures HeadAnchor(lines).Some? <==> Records(lines) != []
    ensures HeadAnchor(lines).Some? ==>
              HeadAnchor(lines).value.sequence == |Records(lines)| - 1
                  && Matches(Records(lines), HeadAnchor(lines).value)
  {
    HeadOfFile(lines);
    var rs := Records(lines);
    if rs != [] {
      assert Linked(h, rs, |rs| - 1);
    }
  }

  lemma PublishedStaysSound(h: Digest, j: Journal)
    requires Sound(h, j)
    ensures var j' := Published(j);
            && Sound(h, j') && j'.file == j.file && Highest(j'.anchors) >= Highest(j.anchors)
            && (Records(j.Lines()) != [] ==> Highest(j'.anchors) == |Records(j.Lines())| - 1)
  {
    HeadMatches(h, j.Lines());
    AnchorsInside(Records(j.Lines()), j.anchors);
    if HeadAnchor(j.Lines()).Some? {
      HighestAppend(j.anchors, HeadAnchor(j.Lines()).value);
    }
  }

  lemma {:induction false} AnchorsInside(rs: seq<Record>, anchors: seq<Anchor>)
    requires forall a :: a in anchors ==> Matches(rs, a)
    ensures -1 <= Highest(anchors) < |rs| || anchors == []
  {
    if anchors != [] {
      AnchorsInside(rs, anchors[..|anchors| - 1]);
      assert Matches(rs, anchors[|anchors| - 1]);
    }
  }

  /** Offered its head, the publisher leaves fewer than `every` records beyond the highest anchor. */
  lemma MaybePublishedStaysSound(h: Digest, j: Journal, every: nat, sequence: nat)
    requires Sound(h, j) && every > 0 && sequence == |Records(j.Lines())| - 1
    ensures var j' := MaybePublished(j, every, sequence); Sound(h, j') && j'.file == j.file && Covered(every, j')
  {
    PublishedStaysSound(h, j);
  }

  lemma RecordedStaysSound(h: Digest, every: nat, j: Journal, payload: Payload)
    requires Sound(h, j) && every > 0
    ensures var j' := Step(h, every, j, Recorded(payload));
            && Sound(h, j') && |Records(j'.Lines())| == |Records(j.Lines())| + 1 && Covered(every, j')
            && j'.file.Some?
  {
    AppendedStaysSound(h, j, payload);
    var (j', r) := Appended(h, j, payload);
    MaybePublishedStaysSound(h, j', every, r.value.body.sequence);
  }

  lemma StepStaysSound(h: Digest, every: nat, j: Journal, e: Event)
    requires Sound(h, j) && every > 0
    ensures var j' := Step(h, every, j, e);
            && Sound(h, j')
            && |Records(j'.Lines())| == |Records(j.Lines())| + (if e.Recorded? then 1 else 0)
            && (e.Recorded? || Covered(every, j) ==> Covered(every, j'))
            && (j'.file.Some? <==> j.file.Some? || e.Recorded?)
  {
    match e {
      case Recorded(payload) => RecordedStaysSound(h, every, j, payload);
      case PublishNow => PublishedStaysSound(h, j);
      case Restart => AnchorsInside(Records(j.Lines()), j.anchors);
    }
  }

  /** What the verifier accepts: a file that exists and verifies. */
  ghost predicate Accepted(h: Digest, file: File) { file.Some? && Verifies(h, file.value) }

  /** Writer and verifier agree: from any sound trail, every interleaving of records, publications and
      restarts leaves the records it should hold in a file the verifier accepts, once there is a file at
      all; and after any record fewer than `every` records are ever unanchored. */
  lemma {:induction false} EveryRunVerifies(h: Digest, every: nat, j: Journal, es: seq<Event>)
    requires Sound(h, j) && every > 0
    ensures var j' := Run(h, every, j, es);
            && Sound(h, j')
            && |Records(j'.Lines())| == |Records(j.Lines())| + CountRecorded(es)
            && (Covered(every, j) || CountRecorded(es) > 0 ==> Covered(every, j'))
            && (Accepted(h, j'.file) <==> j.file.Some? || CountRecorded(es) > 0)
  {
    if es != [] {
      EveryRunVerifies(h, every, j, es[..|es| - 1]);
      StepStaysSound(h, every, Run(h, every, j, es[..|es| - 1]), es[|es| - 1]);
    }
  }

  /** On any file at all: however records, publications and restarts interleave from a new process on, the
      file verifies at the end exactly when it did at the start. Recording mends nothing and breaks nothing. */
  lemma {:induction false} EveryRunKeepsTheVerdict(h: Digest, every: nat, j: Journal, es: seq<Event>)
    requires j.writer == NewWriter()
    ensures var j' := Run(h, every, j, es);
            && (Verifies(h, j'.Lines()) <==> Verifies(h, j.Lines()))
            && (Verifies(h, j'.Lines()) ==> InStep(j'.writer, j'.Lines()))
  {
    if es != [] {
      EveryRunKeepsTheVerdict(h, every, j, es[..|es| - 1]);
      var (before, e) := (Run(h, every, j, es[..|es| - 1]), es[|es| - 1]);
      if e.Recorded? {
        AppendKeepsTheVerdict(h, before.file, before.writer, e.payload);
      }
    }
  }

  /** End to end: after a run with at least one record and one anchor, the trail itself passes the
      anchored check, and any other file that passes holds all but fewer than `every` of its
      records, unless the digest collides. */
  lemma AcceptedFilesHoldTheTrail(h: Digest, every: nat, j: Journal, es: seq<Event>, file: seq<Line>)
    requires Sound(h, j) && every > 0 && CountRecorded(es) > 0
    requires var j' := Run(h, every, j, es);
             && j'.anchors != []
             && Verifies(h, file) && forall a :: a in j'.anchors ==> Matches(Records(file), a)
    ensures var os, rs := Records(Run(h, every, j, es).Lines()), Records(file);
            && Verifies(h, Run(h, every, j, es).Lines())
            && (Collision(h, rs, os)
                || exists n :: 0 < n && |os| - every < n <= |os| && n <= |rs| && rs[..n] == os[..n])
  {
    EveryRunVerifies(h, every, j, es);
    var j' := Run(h, every, j, es);
    AnchorSoundness(h, file, Records(j'.Lines()), j'.anchors);
    var os, rs, n := Records(j'.Lines()), Records(file), Highest(j'.anchors) + 1;
    assert Collision(h, rs, os) || rs[..n] == os[..n];
  }
}
