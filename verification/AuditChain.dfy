/** audit-service: appending to the hash chain and verifying it. The digest is a parameter. */
module AuditChain {
  import opened Basics

  /** The anchor a chain starts from: sixty-four zeros. */
  function Genesis(): (g: string)
    ensures g != ""
  {
    seq(64, (i: nat) => '0')
  }

  /** The fields covered by the hash. */
  datatype Fields = Fields(sequence: Option<int>, actor: string, action: string, resourceType: string,
                           resourceId: string, recordedAt: string, payload: string)

  datatype Record = Record(fields: Fields, prevHash: string, recordHash: string)

  /** SHA-256 (section 6.2 of FIPS 180-4) over the previous hash and the canonical form of the fields. */
  type Digest = (string, Fields) -> string

  /** The hypotheses on the digest: no collisions, and never the anchor value or nothing at all. */
  ghost predicate Ideal(h: Digest) {
    forall p, x {:trigger NoCollision(h, p, x)} :: NoCollision(h, p, x) && RealHash(h(p, x))
  }

  ghost predicate NoCollision(h: Digest, p: string, x: Fields) {
    forall q, y :: h(q, y) == h(p, x) ==> q == p && y == x
  }

  predicate RealHash(hash: string) { hash != Genesis() && hash != "" }

  function OrGenesis(prev: string): string { if prev == "" then Genesis() else prev }

  function ComputeHash(h: Digest, prev: string, fields: Fields): string { h(OrGenesis(prev), fields) }

  function Link(h: Digest, prev: string, fields: Fields): Record {
    Record(fields, OrGenesis(prev), ComputeHash(h, OrGenesis(prev), fields))
  }

  /* ---------- verification ---------- */

  datatype Reason = PrevMismatch | HashMismatch | Backwards | Gap
  datatype ChainBreak = ChainBreak(index: nat, reason: Reason)

  /** The hash record i must point at. */
  function Expected(records: seq<Record>, i: nat): string
    requires i <= |records|
  {
    if i == 0 then Genesis() else records[i - 1].recordHash
  }

  function LastSequence(records: seq<Record>, i: nat): Option<int>
    requires i <= |records|
  {
    if i == 0 then None
    else if records[i - 1].fields.sequence.Some? then records[i - 1].fields.sequence
    else LastSequence(records, i - 1)
  }

  function SequenceFault(sequence: Option<int>, last: Option<int>): Option<Reason> {
    if last.None? || sequence.None? then None
    else if sequence.value <= last.value then Some(Backwards)
    else if sequence.value != last.value + 1 then Some(Gap)
    else None
  }

  function HashOk(h: Digest, r: Record): bool { r.recordHash == ComputeHash(h, r.prevHash, r.fields) }

  /** The breaks found so far, and then those of record i. */
  function Judge(h: Digest, records: seq<Record>, i: nat, found: seq<ChainBreak>): seq<ChainBreak>
    requires i < |records|
  {
    var r := records[i];
    var linked := if r.prevHash != Expected(records, i) then found + [ChainBreak(i, PrevMismatch)] else found;
    var hashed := if HashOk(h, r) then linked else linked + [ChainBreak(i, HashMismatch)];
    match SequenceFault(r.fields.sequence, LastSequence(records, i))
    case None => hashed
    case Some(reason) => hashed + [ChainBreak(i, reason)]
  }

  function Breaks(h: Digest, records: seq<Record>, n: nat): seq<ChainBreak>
    requires n <= |records|
  {
    if n == 0 then [] else Judge(h, records, n - 1, Breaks(h, records, n - 1))
  }

  function Report(h: Digest, records: seq<Record>): seq<ChainBreak> { Breaks(h, records, |records|) }

  predicate Intact(h: Digest, records: seq<Record>) { Report(h, records) == [] }

  method VerifyChain(h: Digest, records: seq<Record>) returns (breaks: seq<ChainBreak>)
    ensures breaks == Report(h, records)
  {
    breaks := [];
    var expected, last := Genesis(), None;
    for i := 0 to |records|
      invariant breaks == Breaks(h, records, i)
      invariant expected == Expected(records, i)
      invariant last == LastSequence(records, i)
    {
      var r := records[i];
      if r.prevHash != expected { breaks := breaks + [ChainBreak(i, PrevMismatch)]; }
      if r.recordHash != ComputeHash(h, r.prevHash, r.fields) { breaks := breaks + [ChainBreak(i, HashMismatch)]; }
      if last.Some? && r.fields.sequence.Some? {
        if r.fields.sequence.value <= last.value {
          breaks := breaks + [ChainBreak(i, Backwards)];
        } else if r.fields.sequence.value != last.value + 1 {
          breaks := breaks + [ChainBreak(i, Gap)];
        }
      }
      last := if r.fields.sequence.Some? then r.fields.sequence else last;
      expected := r.recordHash;
    }
  }

  /** Nothing is wrong with record i where it stands. */
  predicate Clean(h: Digest, records: seq<Record>, i: nat)
    requires i < |records|
  {
    && records[i].prevHash == Expected(records, i)
    && HashOk(h, records[i])
    && SequenceFault(records[i].fields.sequence, LastSequence(records, i)).None?
  }

  lemma {:induction false} CleanMeansNoBreak(h: Digest, records: seq<Record>, i: nat, found: seq<ChainBreak>)
    requires i < |records|
    ensures Clean(h, records, i) ==> Judge(h, records, i, found) == found
    ensures !Clean(h, records, i) ==> |Judge(h, records, i, found)| > |found|
  {
  }

  predicate AllClean(h: Digest, records: seq<Record>, n: nat)
    requires n <= |records|
  {
    n == 0 || (AllClean(h, records, n - 1) && Clean(h, records, n - 1))
  }

  lemma {:induction false} CleanAt(h: Digest, records: seq<Record>, n: nat, i: nat)
    requires i < n <= |records| && AllClean(h, records, n)
    ensures Clean(h, records, i)
  {
    if i < n - 1 { CleanAt(h, records, n - 1, i); }
  }

  lemma {:induction false} CleanMeansNoBreaks(h: Digest, records: seq<Record>, n: nat)
    requires n <= |records|
    ensures Breaks(h, records, n) == [] <==> AllClean(h, records, n)
  {
    if n > 0 {
      CleanMeansNoBreaks(h, records, n - 1);
      CleanMeansNoBreak(h, records, n - 1, Breaks(h, records, n - 1));
    }
  }

  /** Record j is the last numbered one before record i. */
  predicate NumberedBefore(records: seq<Record>, j: nat, i: nat) {
    && j < i <= |records| && records[j].fields.sequence.Some?
    && forall k :: j < k < i ==> records[k].fields.sequence.None?
  }

  lemma {:induction false} LastSequenceIs(records: seq<Record>, j: nat, i: nat)
    requires NumberedBefore(records, j, i)
    ensures LastSequence(records, i) == records[j].fields.sequence
  {
    if j < i - 1 { LastSequenceIs(records, j, i - 1); }
  }

  lemma {:induction false} SomebodyNumbered(records: seq<Record>, i: nat) returns (j: nat)
    requires i <= |records| && LastSequence(records, i).Some?
    ensures NumberedBefore(records, j, i)
  {
    if records[i - 1].fields.sequence.Some? { j := i - 1; } else { j := SomebodyNumbered(records, i - 1); }
  }

  /** Whether record i has this break where it stands. */
  predicate Has(h: Digest, records: seq<Record>, b: ChainBreak)
    requires b.index < |records|
  {
    match b.reason
    case PrevMismatch => records[b.index].prevHash != Expected(records, b.index)
    case HashMismatch => !HashOk(h, records[b.index])
    case _ => SequenceFault(records[b.index].fields.sequence, LastSequence(records, b.index)) == Some(b.reason)
  }

  lemma {:induction false} JudgeAdds(h: Digest, records: seq<Record>, i: nat, found: seq<ChainBreak>, b: ChainBreak)
    requires i < |records|
    ensures b in Judge(h, records, i, found) <==> b in found || (b.index == i && Has(h, records, b))
  {
    var r := records[i];
    var linked := if r.prevHash != Expected(records, i) then found + [ChainBreak(i, PrevMismatch)] else found;
    assert b in linked <==> b in found || (b == ChainBreak(i, PrevMismatch) && Has(h, records, b));
    var hashed := if HashOk(h, r) then linked else linked + [ChainBreak(i, HashMismatch)];
    assert b in hashed <==> b in linked || (b == ChainBreak(i, HashMismatch) && Has(h, records, b));
  }

  lemma {:induction false} NextRecordAdds(h: Digest, records: seq<Record>, i: nat, b: ChainBreak)
    requires i < |records|
    ensures b in Breaks(h, records, i + 1) <==> b in Breaks(h, records, i) || (b.index == i && Has(h, records, b))
  {
    JudgeAdds(h, records, i, Breaks(h, records, i), b);
  }

  lemma {:induction false} BreaksUpTo(h: Digest, records: seq<Record>, n: nat, b: ChainBreak)
    requires n <= |records|
    ensures b in Breaks(h, records, n) <==> b.index < n && Has(h, records, b)
  {
    var found := false;
    for i := 0 to n
      invariant found == (b in Breaks(h, records, i))
      invariant found <==> b.index < i && Has(h, records, b)
    {
      NextRecordAdds(h, records, i, b);
      found := found || (b.index == i && Has(h, records, b));
    }
  }

  /** What a break of each kind means, on the records themselves. */
  ghost predicate Faulty(h: Digest, records: seq<Record>, i: nat, reason: Reason)
    requires i < |records|
  {
    var r := records[i];
    match reason
    case PrevMismatch => r.prevHash != if i == 0 then Genesis() else records[i - 1].recordHash
    case HashMismatch => r.recordHash != h(if r.prevHash == "" then Genesis() else r.prevHash, r.fields)
    case Backwards =>
      r.fields.sequence.Some? &&
      exists j: nat :: NumberedBefore(records, j, i) && r.fields.sequence.value <= records[j].fields.sequence.value
    case Gap =>
      r.fields.sequence.Some? &&
      exists j: nat :: NumberedBefore(records, j, i) && r.fields.sequence.value > records[j].fields.sequence.value + 1
  }

  /** The report lists a break exactly where the records have it: a wrong link, a wrong hash, a number that does not
      rise above the last one given, or one that skips. */
  lemma {:induction false} EveryFaultIsReported(h: Digest, records: seq<Record>, i: nat, reason: Reason)
    requires i < |records|
    ensures ChainBreak(i, reason) in Report(h, records) <==> Faulty(h, records, i, reason)
  {
    BreaksUpTo(h, records, |records|, ChainBreak(i, reason));
    if LastSequence(records, i).Some? {
      var j := SomebodyNumbered(records, i);
      LastSequenceIs(records, j, i);
      assert NumberedBefore(records, j, i);
    }
    forall j: nat | NumberedBefore(records, j, i) ensures LastSequence(records, i) == records[j].fields.sequence {
      LastSequenceIs(records, j, i);
    }
  }

  /* ---------- appending ---------- */

  /** A request to append: everything but the position. */
  datatype Request = Request(actor: string, action: string, resourceType: string, resourceId: string,
                             recordedAt: string, payload: string)

  function FieldsOf(q: Request, sequence: int): Fields {
    Fields(Some(sequence), q.actor, q.action, q.resourceType, q.resourceId, q.recordedAt, q.payload)
  }

  /** The log after one append per request, from an empty table. */
  function Appended(h: Digest, requests: seq<Request>): (records: seq<Record>)
    ensures |records| == |requests|
  {
    if requests == [] then []
    else
      var before := Appended(h, requests[..|requests| - 1]);
      before + [Link(h, Expected(before, |before|), FieldsOf(requests[|requests| - 1], |requests|))]
  }

  class AuditLog {
    var records: seq<Record>
    ghost var requests: seq<Request>
    const h: Digest

    /** The table is exactly what its appends wrote. */
    ghost predicate Valid()
      reads this
    {
      records == Appended(h, requests)
    }

    constructor (h: Digest)
      ensures Valid() && records == [] && requests == [] && this.h == h
    {
      this.h := h;
      records, requests := [], [];
    }

    method AppendRecord(q: Request) returns (record: Record)
      requires Valid()
      modifies this
      ensures Valid() && requests == old(requests) + [q]
      ensures records == old(records) + [record]
      ensures record.fields == FieldsOf(q, |records|)
    {
      ghost var written := requests;
      NumberedFromOne(h, requests);
      var next := 1;
      var prev := Genesis();
      if records != [] {
        var tail := records[|records| - 1];
        next := (if tail.fields.sequence.Some? then tail.fields.sequence.value else 0) + 1;
        prev := tail.recordHash;
      }
      record := Link(h, prev, FieldsOf(q, next));
      records := records + [record];
      requests := requests + [q];
      assert requests[..|requests| - 1] == written;
    }
  }

  /* ---------- appends verify ---------- */

  lemma {:induction false} NumberedFromOne(h: Digest, requests: seq<Request>)
    ensures forall i :: 0 <= i < |requests| ==> Appended(h, requests)[i].fields == FieldsOf(requests[i], i + 1)
  {
    if requests != [] { NumberedFromOne(h, requests[..|requests| - 1]); }
  }

  lemma {:induction false} LastSequenceOfPrefix(a: seq<Record>, b: seq<Record>, n: nat)
    requires n <= |a| && n <= |b| && forall i :: 0 <= i < n ==> a[i].fields.sequence == b[i].fields.sequence
    ensures LastSequence(a, n) == LastSequence(b, n)
  {
    if n > 0 { LastSequenceOfPrefix(a, b, n - 1); }
  }

  /** Records after i do not change what is found at i. */
  lemma {:induction false} CleanInPrefix(h: Digest, a: seq<Record>, b: seq<Record>, n: nat)
    requires n <= |a| && n <= |b| && forall k :: 0 <= k < n ==> a[k] == b[k]
    requires AllClean(h, a, n)
    ensures AllClean(h, b, n)
  {
    if n > 0 {
      CleanInPrefix(h, a, b, n - 1);
      LastSequenceOfPrefix(a, b, n - 1);
    }
  }

  lemma {:induction false} AppendsAreClean(h: Digest, requests: seq<Request>)
    requires Ideal(h)
    ensures AllClean(h, Appended(h, requests), |requests|)
  {
    if requests != [] {
      var n := |requests| - 1;
      var before, log := Appended(h, requests[..n]), Appended(h, requests);
      AppendsAreClean(h, requests[..n]);
      CleanInPrefix(h, before, log, n);
      LastAppendIsClean(h, requests);
    }
  }

  lemma {:induction false} LastAppendIsClean(h: Digest, requests: seq<Request>)
    requires Ideal(h) && requests != []
    ensures Clean(h, Appended(h, requests), |requests| - 1)
  {
    var n := |requests| - 1;
    var log := Appended(h, requests);
    NumberedFromOne(h, requests);
    if n > 0 {
      assert LastSequence(log, n) == Some(n);
      var front := Appended(h, requests[..n]);
      var last := front[n - 1];
      assert last == log[n - 1];
      assert exists p :: last.recordHash == h(p, last.fields);
      var p :| last.recordHash == h(p, last.fields);
      assert NoCollision(h, p, last.fields) && RealHash(h(p, last.fields));
    }
  }

  /** Every sequence of appends verifies with no breaks. */
  lemma {:induction false} AppendsVerify(h: Digest, requests: seq<Request>)
    requires Ideal(h)
    ensures Report(h, Appended(h, requests)) == []
  {
    AppendsAreClean(h, requests);
    CleanMeansNoBreaks(h, Appended(h, requests), |requests|);
  }

  /* ---------- evidence ---------- */

  /** In a clean chain every record but none before the first points at a real hash. */
  lemma {:induction false} ExpectedIsReal(h: Digest, records: seq<Record>, i: nat)
    requires Ideal(h) && AllClean(h, records, |records|) && i <= |records|
    ensures Expected(records, i) != ""
    ensures i > 0 ==> Expected(records, i) != Genesis()
  {
    if i > 0 {
      var r := records[i - 1];
      CleanAt(h, records, |records|, i - 1);
      assert NoCollision(h, OrGenesis(r.prevHash), r.fields) && RealHash(h(OrGenesis(r.prevHash), r.fields));
    }
  }

  lemma {:induction false} SameHashSameRecord(h: Digest, a: Record, b: Record)
    requires Ideal(h) && a.prevHash != "" && b.prevHash != "" && a.recordHash == b.recordHash
    requires HashOk(h, a) && HashOk(h, b)
    ensures a == b
  {
    assert NoCollision(h, a.prevHash, a.fields) && RealHash(h(a.prevHash, a.fields));
  }

  lemma {:induction false} LinkAt(h: Digest, records: seq<Record>, i: nat)
    requires Ideal(h) && AllClean(h, records, |records|) && i < |records|
    ensures records[i].prevHash == Expected(records, i) != "" && HashOk(h, records[i])
  {
    ExpectedIsReal(h, records, i);
    CleanAt(h, records, |records|, i);
  }

  lemma {:induction false} StepBack(h: Digest, a: seq<Record>, b: seq<Record>, m: nat, n: nat)
    requires Ideal(h) && AllClean(h, a, |a|) && AllClean(h, b, |b|) && 0 < m <= |a| && 0 < n <= |b|
    requires Expected(a, m) == Expected(b, n)
    ensures a[m - 1] == b[n - 1] && Expected(a, m - 1) == Expected(b, n - 1)
  {
    LinkAt(h, a, m - 1);
    LinkAt(h, b, n - 1);
    SameHashSameRecord(h, a[m - 1], b[n - 1]);
  }

  lemma {:induction false} AgreeBack(h: Digest, a: seq<Record>, b: seq<Record>, m: nat, n: nat)
    requires Ideal(h) && AllClean(h, a, |a|) && AllClean(h, b, |b|) && m <= |a| && n <= |b|
    requires Expected(a, m) == Expected(b, n)
    ensures m == n && forall i :: 0 <= i < m ==> a[i] == b[i]
  {
    ExpectedIsReal(h, a, m);
    ExpectedIsReal(h, b, n);
    if m > 0 && n > 0 {
      StepBack(h, a, b, m, n);
      AgreeBack(h, a, b, m - 1, n - 1);
    }
  }

  /** Two non-empty intact chains with the same final hash are the same chain, field by field. */
  lemma {:induction false} SameTailSameHistory(h: Digest, a: seq<Record>, b: seq<Record>)
    requires Ideal(h) && Intact(h, a) && Intact(h, b) && a != [] && b != []
    requires a[|a| - 1].recordHash == b[|b| - 1].recordHash
    ensures a == b
  {
    CleanMeansNoBreaks(h, a, |a|);
    CleanMeansNoBreaks(h, b, |b|);
    AgreeBack(h, a, b, |a|, |b|);
  }

  /** So deleting, inserting, reordering or rewriting records under an unchanged final hash always shows. */
  lemma {:induction false} RewriteUnderTheSameTailBreaks(h: Digest, log: seq<Record>, forged: seq<Record>)
    requires Ideal(h) && Intact(h, log) && log != [] && forged != [] && forged != log
    requires forged[|forged| - 1].recordHash == log[|log| - 1].recordHash
    ensures Report(h, forged) != []
  {
    if Intact(h, forged) { SameTailSameHistory(h, log, forged); }
  }

  lemma {:induction false} AllCleanSoFar(h: Digest, records: seq<Record>, m: nat, n: nat)
    requires m <= n <= |records| && AllClean(h, records, n)
    ensures AllClean(h, records, m)
  {
    if m < n { AllCleanSoFar(h, records, m, n - 1); }
  }

  /** What does not show: an intact log cut short is an intact log. */
  lemma {:induction false} TruncationIsInvisible(h: Digest, records: seq<Record>, n: nat)
    requires n <= |records| && Intact(h, records)
    ensures Intact(h, records[..n])
  {
    CleanMeansNoBreaks(h, records, |records|);
    AllCleanSoFar(h, records, n, |records|);
    CleanInPrefix(h, records, records[..n], n);
    CleanMeansNoBreaks(h, records[..n], n);
  }

  /* ---------- one edited record ---------- */

  function Edited(records: seq<Record>, i: nat, fields: Fields): seq<Record>
    requires i < |records|
  {
    records[i := records[i].(fields := fields)]
  }

  lemma {:induction false} EditedRecordBreaks(h: Digest, records: seq<Record>, i: nat, fields: Fields,
                                              found: seq<ChainBreak>)
    requires Ideal(h) && i < |records| && Clean(h, records, i) && fields != records[i].fields
    ensures var judged := Judge(h, Edited(records, i, fields), i, found);
            && found + [ChainBreak(i, HashMismatch)] <= judged
            && (fields.sequence == records[i].fields.sequence ==> judged == found + [ChainBreak(i, HashMismatch)])
  {
    var forged, prev := Edited(records, i, fields), OrGenesis(records[i].prevHash);
    assert NoCollision(h, prev, fields) && RealHash(h(prev, fields));
    LastSequenceOfPrefix(forged, records, i);
    assert !HashOk(h, forged[i]);
    assert forged[i].prevHash == Expected(forged, i);
  }

  lemma {:induction false} UneditedRecordIsClean(h: Digest, records: seq<Record>, i: nat, fields: Fields, k: nat)
    requires i < |records| && k < |records| && k != i && Clean(h, records, k)
    requires fields.sequence == records[i].fields.sequence || k < i
    ensures Clean(h, Edited(records, i, fields), k)
  {
    LastSequenceOfPrefix(Edited(records, i, fields), records, k);
  }

  /** Judging an unedited record of a clean chain finds nothing new. */
  lemma {:induction false} JudgeUnedited(h: Digest, records: seq<Record>, i: nat, fields: Fields, k: nat,
                                         found: seq<ChainBreak>)
    requires AllClean(h, records, |records|) && i < |records| && k < |records| && k != i
    requires fields.sequence == records[i].fields.sequence || k < i
    ensures Judge(h, Edited(records, i, fields), k, found) == found
  {
    CleanAt(h, records, |records|, k);
    UneditedRecordIsClean(h, records, i, fields, k);
    CleanMeansNoBreak(h, Edited(records, i, fields), k, found);
  }

  lemma {:induction false} JudgeEdited(h: Digest, records: seq<Record>, i: nat, fields: Fields)
    requires Ideal(h) && AllClean(h, records, |records|) && i < |records|
    requires fields.sequence == records[i].fields.sequence && fields != records[i].fields
    ensures Judge(h, Edited(records, i, fields), i, []) == [ChainBreak(i, HashMismatch)]
  {
    CleanAt(h, records, |records|, i);
    EditedRecordBreaks(h, records, i, fields, []);
  }

  /** With every other record clean, the report is what record i adds to it. */
  lemma {:induction false} OneUncleanRecord(h: Digest, log: seq<Record>, i: nat, b: ChainBreak, n: nat)
    requires i < |log| && n <= |log| && Judge(h, log, i, []) == [b]
    requires forall k :: 0 <= k < |log| && k != i ==> Clean(h, log, k)
    ensures Breaks(h, log, n) == if n <= i then [] else [b]
  {
    if n > 0 {
      OneUncleanRecord(h, log, i, b, n - 1);
      if n - 1 != i { CleanMeansNoBreak(h, log, n - 1, Breaks(h, log, n - 1)); }
    }
  }

  lemma {:induction false} EditIsLocal(h: Digest, records: seq<Record>, i: nat, fields: Fields, n: nat)
    requires Ideal(h) && AllClean(h, records, |records|) && i < |records| && n <= |records|
    requires fields.sequence == records[i].fields.sequence && fields != records[i].fields
    ensures Breaks(h, Edited(records, i, fields), n) == if n <= i then [] else [ChainBreak(i, HashMismatch)]
  {
    var edited := Edited(records, i, fields);
    forall k | 0 <= k < |edited| && k != i ensures Clean(h, edited, k) {
      CleanAt(h, records, |records|, k);
      UneditedRecordIsClean(h, records, i, fields, k);
    }
    JudgeEdited(h, records, i, fields);
    OneUncleanRecord(h, edited, i, ChainBreak(i, HashMismatch), n);
  }

  /** Editing any hashed field except the sequence is reported as exactly one break, at that record. */
  lemma {:induction false} EditIsPinpointed(h: Digest, records: seq<Record>, i: nat, fields: Fields)
    requires Ideal(h) && Intact(h, records) && i < |records|
    requires fields.sequence == records[i].fields.sequence && fields != records[i].fields
    ensures Report(h, Edited(records, i, fields)) == [ChainBreak(i, HashMismatch)]
  {
    CleanMeansNoBreaks(h, records, |records|);
    EditIsLocal(h, records, i, fields, |records|);
  }

  lemma {:induction false} NothingBeforeTheEdit(h: Digest, records: seq<Record>, i: nat, fields: Fields, n: nat)
    requires AllClean(h, records, |records|) && n <= i < |records|
    ensures Breaks(h, Edited(records, i, fields), n) == []
  {
    if n > 0 {
      NothingBeforeTheEdit(h, records, i, fields, n - 1);
      JudgeUnedited(h, records, i, fields, n - 1, []);
    }
  }

  lemma {:induction false} BreaksExtend(h: Digest, records: seq<Record>, m: nat, n: nat)
    requires m <= n <= |records|
    ensures Breaks(h, records, m) <= Breaks(h, records, n)
  {
    if m < n { BreaksExtend(h, records, m, n - 1); }
  }

  /** Editing the sequence as well still names that record first, and nothing before it. */
  lemma {:induction false} AnyEditIsReported(h: Digest, records: seq<Record>, i: nat, fields: Fields)
    requires Ideal(h) && Intact(h, records) && i < |records| && fields != records[i].fields
    ensures [ChainBreak(i, HashMismatch)] <= Report(h, Edited(records, i, fields))
  {
    CleanMeansNoBreaks(h, records, |records|);
    EditIsFirst(h, records, i, fields);
    BreaksExtend(h, Edited(records, i, fields), i + 1, |records|);
  }

  lemma {:induction false} EditIsFirst(h: Digest, records: seq<Record>, i: nat, fields: Fields)
    requires Ideal(h) && AllClean(h, records, |records|) && i < |records| && fields != records[i].fields
    ensures [ChainBreak(i, HashMismatch)] <= Breaks(h, Edited(records, i, fields), i + 1)
  {
    CleanAt(h, records, |records|, i);
    NothingBeforeTheEdit(h, records, i, fields, i);
    EditedRecordBreaks(h, records, i, fields, []);
  }
}
