/** The clearance case as a value: what filing and clearing documents does to it, and
    what every history of such calls keeps. */
module CaseRules {
  import opened Common
  import Text

  datatype DocumentType = CommercialInvoice | BillOfLading

  datatype AssessmentStatus =
    | Opened
    | DocumentVerification
    | RiskAssessment
    | DutyPaymentPending
    | Released
    | Rejected

  datatype Doc = Doc(id: nat, dtype: DocumentType, file: nat, verified: bool, inspector: Option<string>)

  datatype CaseValue = CaseValue(id: string, shipment: string, status: AssessmentStatus, docs: seq<Doc>)

  datatype CaseError =
    | InvalidShipmentReference
    | DocumentsNotAttachable
    | InvalidDocumentReference
    | DocumentAlreadyAttached
    | DocumentNotVerifiable
    | DocumentNotFound
    | DocumentAlreadyVerified
    | InvalidInspector

  /** The event that announces complete paperwork. */
  datatype Completion = Completion(caseId: string, shipment: string)

  const MAX_INSPECTOR_ID_LENGTH := 128

  predicate Decided(status: AssessmentStatus) { status in {Released, Rejected} }

  predicate ValidInspector(inspector: string) {
    1 <= |Text.Trim(inspector)| <= MAX_INSPECTOR_ID_LENGTH
  }

  function Open(id: string, shipment: string): Result<CaseValue, CaseError> {
    if Text.Trim(shipment) == "" then Err(InvalidShipmentReference)
    else Ok(CaseValue(id, Text.Trim(shipment), Opened, []))
  }

  predicate HoldsFile(docs: seq<Doc>, file: nat) {
    exists i :: 0 <= i < |docs| && docs[i].file == file
  }

  /** A type or file the caller could not name properly arrives as `None`. */
  function Attach(c: CaseValue, docId: nat, dtype: Option<DocumentType>, file: Option<nat>)
    : Result<CaseValue, CaseError> {
    if Decided(c.status) then Err(DocumentsNotAttachable)
    else if dtype.None? || file.None? then Err(InvalidDocumentReference)
    else if HoldsFile(c.docs, file.value) then Err(DocumentAlreadyAttached)
    else Ok(c.(docs := c.docs + [Doc(docId, dtype.value, file.value, false, None)],
               status := if c.status == Opened then DocumentVerification else c.status))
  }

  predicate Cleared(docs: seq<Doc>, dtype: DocumentType) {
    exists i :: 0 <= i < |docs| && docs[i].verified && docs[i].dtype == dtype
  }

  predicate Complete(docs: seq<Doc>) {
    Cleared(docs, CommercialInvoice) && Cleared(docs, BillOfLading)
  }

  /** The first document with that identifier. */
  function Find(docs: seq<Doc>, id: nat): (r: Option<nat>)
    ensures r.None? ==> forall i :: 0 <= i < |docs| ==> docs[i].id != id
    ensures r.Some? ==> r.value < |docs| && docs[r.value].id == id
    ensures r.Some? ==> forall i :: 0 <= i < r.value ==> docs[i].id != id
  {
    if docs == [] then None
    else if docs[0].id == id then Some(0)
    else match Find(docs[1..], id)
      case None => None
      case Some(i) => Some(i + 1)
  }

  function Mark(d: Doc, inspector: string): Doc {
    d.(verified := true, inspector := Some(Text.Trim(inspector)))
  }

  function Verify(c: CaseValue, docId: nat, inspector: string): Result<(CaseValue, Option<Completion>), CaseError> {
    if Decided(c.status) then Err(DocumentNotVerifiable)
    else match Find(c.docs, docId)
      case None => Err(DocumentNotFound)
      case Some(i) =>
        if c.docs[i].verified then Err(DocumentAlreadyVerified)
        else if !ValidInspector(inspector) then Err(InvalidInspector)
        else
          var docs := c.docs[i := Mark(c.docs[i], inspector)];
          if c.status == DocumentVerification && Complete(docs)
          then Ok((c.(docs := docs, status := RiskAssessment), Some(Completion(c.id, c.shipment))))
          else Ok((c.(docs := docs), None))
  }

  /** Opening takes any non-blank reference, and tracks that shipment from the start. */
  lemma {:induction false} OpensExactly(id: string, shipment: string)
    ensures Open(id, shipment) == if |Text.Trim(shipment)| >= 1 then Ok(CaseValue(id, Text.Trim(shipment), Opened, []))
            else Err(InvalidShipmentReference)
  {
  }

  /** Filing is refused on a decided case, without a type or a file, or for a file filed
      before, in this order; and nothing else. Accepted, it adds one uncleared document of
      that type and file behind the others, and the first one starts the verification. */
  lemma {:induction false} AttachesExactly(c: CaseValue, docId: nat, dtype: Option<DocumentType>, file: Option<nat>)
    ensures var r := Attach(c, docId, dtype, file);
            (r == Err(DocumentsNotAttachable) <==> c.status == Released || c.status == Rejected) &&
            (c.status != Released && c.status != Rejected ==>
               (r == Err(InvalidDocumentReference) <==> dtype == None || file == None) &&
               (dtype.Some? && file.Some? ==>
                  (r == Err(DocumentAlreadyAttached) <==> exists d :: d in c.docs && d.file == file.value) &&
                  (r.Ok? <==> forall d :: d in c.docs ==> d.file != file.value)))
    ensures Attach(c, docId, dtype, file).Ok? ==>
              var later := Attach(c, docId, dtype, file).value;
              later.id == c.id && later.shipment == c.shipment && later.docs[..|later.docs| - 1] == c.docs &&
              later.docs[|c.docs|] == Doc(docId, dtype.value, file.value, false, None) &&
              later.status == if c.status == Opened then DocumentVerification else c.status
  {
    if file.Some? && HoldsFile(c.docs, file.value) {
      var i :| 0 <= i < |c.docs| && c.docs[i].file == file.value;
      assert c.docs[i] in c.docs;
    }
  }

  /** Signing off is refused on a decided case, for a document that is not there, for one
      cleared before, or by an inspector without a name of 1 to 128 characters, in this
      order; and for nothing else. */
  lemma {:induction false} VerifiesExactly(c: CaseValue, docId: nat, inspector: string)
    ensures Verify(c, docId, inspector) == Err(DocumentNotVerifiable) <==> c.status == Released || c.status == Rejected
    ensures c.status != Released && c.status != Rejected ==>
              (Verify(c, docId, inspector) == Err(DocumentNotFound) <==> forall d :: d in c.docs ==> d.id != docId)
    ensures c.status != Released && c.status != Rejected ==> forall i: nat :: FirstWith(c.docs, docId, i) ==>
              (Verify(c, docId, inspector) == Err(DocumentAlreadyVerified) <==> c.docs[i].verified) &&
              (!c.docs[i].verified ==>
                 (Verify(c, docId, inspector) == Err(InvalidInspector) <==> !(1 <= |Text.Trim(inspector)| <= 128)) &&
                 (Verify(c, docId, inspector).Ok? <==> 1 <= |Text.Trim(inspector)| <= 128))
  {
    var found := Find(c.docs, docId);
    if found.Some? {
      assert c.docs[found.value] in c.docs;
      assert forall i :: FirstWith(c.docs, docId, i) ==> i == found.value;
    }
  }

  predicate FirstWith(docs: seq<Doc>, id: nat, i: nat) {
    i < |docs| && docs[i].id == id && forall j :: 0 <= j < i ==> docs[j].id != id
  }

  /** After an accepted sign-off the document is cleared, keeps its identity, type and
      file, and names the inspector; every other document is as it was. The paperwork is
      announced exactly when it was being verified and both kinds are now cleared. */
  lemma {:induction false} SignOffNamesTheInspector(c: CaseValue, docId: nat, inspector: string, i: nat)
    requires Verify(c, docId, inspector).Ok? && FirstWith(c.docs, docId, i)
    ensures var (later, event) := Verify(c, docId, inspector).value;
            |later.docs| == |c.docs| &&
            later.docs[i] == Doc(docId, c.docs[i].dtype, c.docs[i].file, true, Some(Text.Trim(inspector))) &&
            (forall j :: 0 <= j < |c.docs| && j != i ==> later.docs[j] == c.docs[j]) &&
            later.id == c.id && later.shipment == c.shipment &&
            (event.Some? <==> c.status == DocumentVerification &&
                              (exists d :: d in later.docs && d.verified && d.dtype == CommercialInvoice) &&
                              (exists d :: d in later.docs && d.verified && d.dtype == BillOfLading)) &&
            later.status == (if event.Some? then RiskAssessment else c.status) &&
            (event.Some? ==> event.value.caseId == c.id && event.value.shipment == c.shipment)
  {
    var (later, event) := Verify(c, docId, inspector).value;
    assert Find(c.docs, docId) == Some(i);
    ClearedMeans(later.docs, CommercialInvoice);
    ClearedMeans(later.docs, BillOfLading);
  }

  lemma {:induction false} ClearedMeans(docs: seq<Doc>, dtype: DocumentType)
    ensures Cleared(docs, dtype) <==> exists d :: d in docs && d.verified && d.dtype == dtype
  {
    if d :| d in docs && d.verified && d.dtype == dtype {
      var i :| 0 <= i < |docs| && docs[i] == d;
      assert docs[i].verified && docs[i].dtype == dtype;
    }
  }

  // ----- every history of calls -------------------------------------------

  datatype Call =
    | AttachCall(docId: nat, dtype: Option<DocumentType>, file: Option<nat>)
    | VerifyCall(verifiedId: nat, inspector: string)

  /** A case and how often its completion was announced so far. */
  datatype History = History(state: CaseValue, events: nat)

  /** One call; a refused one changes nothing. */
  function After(h: History, call: Call): History {
    match call
    case AttachCall(docId, dtype, file) =>
      (match Attach(h.state, docId, dtype, file)
       case Ok(c) => h.(state := c)
       case Err(_) => h)
    case VerifyCall(docId, inspector) =>
      (match Verify(h.state, docId, inspector)
       case Ok((c, event)) => History(c, h.events + if event.Some? then 1 else 0)
       case Err(_) => h)
  }

  function AfterAll(h: History, calls: seq<Call>): History {
    if calls == [] then h else After(AfterAll(h, calls[..|calls| - 1]), calls[|calls| - 1])
  }

  ghost predicate DistinctFiles(docs: seq<Doc>) {
    forall i, j :: 0 <= i < j < |docs| ==> docs[i].file != docs[j].file
  }

  ghost predicate SignedOff(docs: seq<Doc>) {
    forall i :: 0 <= i < |docs| ==> (docs[i].verified <==> docs[i].inspector.Some?) &&
                                    (docs[i].inspector.Some? ==>
                                       1 <= |docs[i].inspector.value| <= MAX_INSPECTOR_ID_LENGTH)
  }

  ghost predicate Lifecycle(h: History) {
    var c := h.state;
    c.status in {Opened, DocumentVerification, RiskAssessment} &&
    (c.status == Opened <==> c.docs == []) &&
    (c.status == RiskAssessment <==> Complete(c.docs)) &&
    h.events == (if c.status == RiskAssessment then 1 else 0) &&
    DistinctFiles(c.docs) && SignedOff(c.docs)
  }

  /** Later documents: the earlier ones in front, and whoever signed one off still has. */
  ghost predicate Extends(docs: seq<Doc>, later: seq<Doc>) {
    |docs| <= |later| &&
    forall i :: 0 <= i < |docs| ==>
      later[i].id == docs[i].id && later[i].dtype == docs[i].dtype && later[i].file == docs[i].file &&
      (docs[i].verified ==> later[i] == docs[i])
  }

  lemma {:induction false} CompleteGrows(docs: seq<Doc>, later: seq<Doc>)
    requires Extends(docs, later) && Complete(docs)
    ensures Complete(later)
  {
    forall dtype | Cleared(docs, dtype)
      ensures Cleared(later, dtype)
    {
      var i :| 0 <= i < |docs| && docs[i].verified && docs[i].dtype == dtype;
      assert later[i].verified && later[i].dtype == dtype;
    }
  }

  /** Filing an uncleared document clears nothing. */
  lemma {:induction false} UnverifiedAddsNothing(docs: seq<Doc>, d: Doc)
    requires !d.verified && Complete(docs + [d])
    ensures Complete(docs)
  {
    forall dtype | Cleared(docs + [d], dtype)
      ensures Cleared(docs, dtype)
    {
      var i :| 0 <= i < |docs + [d]| && (docs + [d])[i].verified && (docs + [d])[i].dtype == dtype;
      assert docs[i].verified && docs[i].dtype == dtype;
    }
  }

  lemma {:induction false} AttachKeepsLifecycle(h: History, docId: nat, dtype: Option<DocumentType>, file: Option<nat>)
    requires Lifecycle(h)
    ensures var later := After(h, AttachCall(docId, dtype, file));
            Lifecycle(later) && Extends(h.state.docs, later.state.docs)
  {
    var docs, later := h.state.docs, After(h, AttachCall(docId, dtype, file)).state.docs;
    if later != docs {
      if Complete(later) {
        UnverifiedAddsNothing(docs, later[|docs|]);
      }
      if Complete(docs) {
        CompleteGrows(docs, later);
      }
    }
  }

  lemma {:induction false} MarkedExtends(docs: seq<Doc>, i: nat, inspector: string)
    requires i < |docs| && !docs[i].verified && ValidInspector(inspector)
    requires DistinctFiles(docs) && SignedOff(docs)
    ensures var later := docs[i := Mark(docs[i], inspector)];
            Extends(docs, later) && DistinctFiles(later) && SignedOff(later) && (Complete(docs) ==> Complete(later))
  {
    var later := docs[i := Mark(docs[i], inspector)];
    assert Extends(docs, later);
    if Complete(docs) {
      CompleteGrows(docs, later);
    }
  }

  lemma {:induction false} VerifyKeepsLifecycle(h: History, docId: nat, inspector: string)
    requires Lifecycle(h)
    ensures var later := After(h, VerifyCall(docId, inspector));
            Lifecycle(later) && Extends(h.state.docs, later.state.docs)
  {
    if Verify(h.state, docId, inspector).Ok? {
      MarkedExtends(h.state.docs, Find(h.state.docs, docId).value, inspector);
    }
  }

  lemma {:induction false} CallKeepsLifecycle(h: History, call: Call)
    requires Lifecycle(h)
    ensures Lifecycle(After(h, call)) && Extends(h.state.docs, After(h, call).state.docs)
  {
    match call
    case AttachCall(docId, dtype, file) => AttachKeepsLifecycle(h, docId, dtype, file);
    case VerifyCall(docId, inspector) => VerifyKeepsLifecycle(h, docId, inspector);
  }

  /** Every history of filing and clearing calls on a freshly opened case, refused
      calls included: `Opened` iff nothing is filed, `RiskAssessment` iff every
      required kind is cleared, announced exactly then and once; files are distinct;
      a document is cleared iff it names its inspector. */
  lemma {:induction false} EveryHistory(id: string, shipment: string, calls: seq<Call>)
    requires Open(id, shipment).Ok?
    ensures Lifecycle(AfterAll(History(Open(id, shipment).value, 0), calls))
    ensures var c := AfterAll(History(Open(id, shipment).value, 0), calls).state;
            c.status == RiskAssessment <==>
              (exists d :: d in c.docs && d.verified && d.dtype == CommercialInvoice) &&
              (exists d :: d in c.docs && d.verified && d.dtype == BillOfLading)
  {
    var docs := AfterAll(History(Open(id, shipment).value, 0), calls).state.docs;
    ClearedMeans(docs, CommercialInvoice);
    ClearedMeans(docs, BillOfLading);
    if calls != [] {
      EveryHistory(id, shipment, calls[..|calls| - 1]);
      CallKeepsLifecycle(AfterAll(History(Open(id, shipment).value, 0), calls[..|calls| - 1]), calls[|calls| - 1]);
    }
  }

  /** Nothing filed disappears, and a sign-off is never overwritten. */
  lemma {:induction false} SignOffsLast(h: History, calls: seq<Call>)
    requires Lifecycle(h)
    ensures Extends(h.state.docs, AfterAll(h, calls).state.docs) && Lifecycle(AfterAll(h, calls))
  {
    if calls != [] {
      SignOffsLast(h, calls[..|calls| - 1]);
      CallKeepsLifecycle(AfterAll(h, calls[..|calls| - 1]), calls[|calls| - 1]);
    }
  }

  /** A decided case is closed: no call of any history changes it or announces it. */
  lemma {:induction false} DecidedIsFinal(h: History, calls: seq<Call>)
    requires Decided(h.state.status)
    ensures AfterAll(h, calls) == h
  {
    if calls != [] {
      DecidedIsFinal(h, calls[..|calls| - 1]);
    }
  }

  // ----- order independence ------------------------------------------------

  /** A sign-off to make: which document, by whom. */
  datatype SignOff = SignOff(docId: nat, inspector: string)

  function VerifyAll(h: History, signOffs: seq<SignOff>): History
    decreases signOffs
  {
    if signOffs == [] then h
    else VerifyAll(After(h, VerifyCall(signOffs[0].docId, signOffs[0].inspector)), signOffs[1..])
  }

  ghost predicate DistinctIds(docs: seq<Doc>) {
    forall i, j :: 0 <= i < j < |docs| ==> docs[i].id != docs[j].id
  }

  predicate Awaits(docs: seq<Doc>, id: nat) {
    exists i :: 0 <= i < |docs| && docs[i].id == id && !docs[i].verified
  }

  /** Each sign-off names its own uncleared document and a usable inspector. */
  ghost predicate Pending(docs: seq<Doc>, signOffs: seq<SignOff>) {
    DistinctIds(docs) &&
    (forall k :: 0 <= k < |signOffs| ==> ValidInspector(signOffs[k].inspector)) &&
    (forall k :: 0 <= k < |signOffs| ==> Awaits(docs, signOffs[k].docId)) &&
    (forall k, l :: 0 <= k < l < |signOffs| ==> signOffs[k].docId != signOffs[l].docId)
  }

  /** The documents after a set of sign-offs, whatever their order. */
  ghost predicate Signed(docs: seq<Doc>, signOffs: seq<SignOff>, later: seq<Doc>) {
    |later| == |docs| &&
    (forall i, s :: 0 <= i < |docs| && s in signOffs && s.docId == docs[i].id ==>
                      later[i] == docs[i].(verified := true, inspector := Some(Text.Trim(s.inspector)))) &&
    (forall i :: 0 <= i < |docs| && (forall s :: s in signOffs ==> s.docId != docs[i].id) ==> later[i] == docs[i])
  }

  /** The outcome of a set of sign-offs, stated without its order: who signed what,
      the status reached, and one announcement iff the set completes the paperwork. */
  ghost predicate Outcome(h: History, signOffs: seq<SignOff>, r: History) {
    var completes := h.state.status == DocumentVerification && Complete(r.state.docs);
    Signed(h.state.docs, signOffs, r.state.docs) && Extends(h.state.docs, r.state.docs) &&
    r.state == h.state.(docs := r.state.docs, status := if completes then RiskAssessment else h.state.status) &&
    r.events == h.events + if completes then 1 else 0
  }

  /** A pending sign-off is never refused. */
  lemma {:induction false} SignOffTakesEffect(h: History, s: SignOff, i: nat)
    requires i < |h.state.docs| && h.state.docs[i].id == s.docId && !h.state.docs[i].verified
    requires DistinctIds(h.state.docs) && ValidInspector(s.inspector) && !Decided(h.state.status)
    ensures var docs := h.state.docs[i := Mark(h.state.docs[i], s.inspector)];
            var completes := h.state.status == DocumentVerification && Complete(docs);
            After(h, VerifyCall(s.docId, s.inspector)) ==
            History(h.state.(docs := docs, status := if completes then RiskAssessment else h.state.status),
                    h.events + if completes then 1 else 0)
  {
    assert Find(h.state.docs, s.docId) == Some(i);
  }

  lemma {:induction false} PendingWithoutFirst(docs: seq<Doc>, signOffs: seq<SignOff>, i: nat)
    requires signOffs != [] && Pending(docs, signOffs)
    requires i < |docs| && docs[i].id == signOffs[0].docId
    ensures Pending(docs[i := Mark(docs[i], signOffs[0].inspector)], signOffs[1..])
  {
    var later := docs[i := Mark(docs[i], signOffs[0].inspector)];
    forall k | 0 <= k < |signOffs[1..]|
      ensures Awaits(later, signOffs[1..][k].docId)
    {
      assert Awaits(docs, signOffs[k + 1].docId);
      var j :| 0 <= j < |docs| && docs[j].id == signOffs[k + 1].docId && !docs[j].verified;
      assert later[j].id == signOffs[1..][k].docId && !later[j].verified;
    }
  }

  /** A first sign-off leaves the rest pending. */
  lemma {:induction false} StillPending(h: History, signOffs: seq<SignOff>)
    requires signOffs != [] && Pending(h.state.docs, signOffs) && !Decided(h.state.status)
    ensures var next := After(h, VerifyCall(signOffs[0].docId, signOffs[0].inspector));
            !Decided(next.state.status) && Pending(next.state.docs, signOffs[1..]) && Outcome(h, [signOffs[0]], next)
  {
    var docs := h.state.docs;
    assert Awaits(docs, signOffs[0].docId);
    var i :| 0 <= i < |docs| && docs[i].id == signOffs[0].docId && !docs[i].verified;
    SignOffTakesEffect(h, signOffs[0], i);
    PendingWithoutFirst(docs, signOffs, i);
    assert signOffs[0] in [signOffs[0]];
  }

  lemma {:induction false} SignOffOutcome(h: History, signOffs: seq<SignOff>)
    requires Pending(h.state.docs, signOffs) && !Decided(h.state.status)
    requires h.state.status == DocumentVerification ==> !Complete(h.state.docs)
    ensures Outcome(h, signOffs, VerifyAll(h, signOffs))
    decreases signOffs
  {
    if signOffs != [] {
      StillPending(h, signOffs);
      var next := After(h, VerifyCall(signOffs[0].docId, signOffs[0].inspector));
      SignOffOutcome(next, signOffs[1..]);
      OutcomeInSteps(h, signOffs, next, VerifyAll(next, signOffs[1..]));
    }
  }

  lemma {:induction false} ExtendsOnward(docs: seq<Doc>, mid: seq<Doc>, later: seq<Doc>)
    requires Extends(docs, mid) && Extends(mid, later)
    ensures Extends(docs, later)
  {
  }

  lemma {:induction false} OutcomeInSteps(h: History, signOffs: seq<SignOff>, next: History, r: History)
    requires signOffs != [] && Pending(h.state.docs, signOffs)
    requires Outcome(h, [signOffs[0]], next) && Outcome(next, signOffs[1..], r)
    ensures Outcome(h, signOffs, r)
  {
    SignedInSteps(h.state.docs, signOffs, next.state.docs, r.state.docs);
    ExtendsOnward(h.state.docs, next.state.docs, r.state.docs);
    if Complete(next.state.docs) {
      CompleteGrows(next.state.docs, r.state.docs);
    }
  }

  lemma {:induction false} SignedInSteps(docs: seq<Doc>, signOffs: seq<SignOff>, mid: seq<Doc>, later: seq<Doc>)
    requires signOffs != [] && Pending(docs, signOffs)
    requires Signed(docs, [signOffs[0]], mid) && Signed(mid, signOffs[1..], later)
    ensures Signed(docs, signOffs, later)
  {
    var first := signOffs[0];
    assert forall s :: s in signOffs <==> s == first || s in signOffs[1..];
    forall i, s | 0 <= i < |docs| && s in signOffs && s.docId == docs[i].id
      ensures later[i] == Mark(docs[i], s.inspector)
    {
      if s == first {
        assert first in [first] && mid[i] == Mark(docs[i], first.inspector);
        assert forall t :: t in signOffs[1..] ==> t.docId != first.docId;
      } else {
        var k :| 0 <= k < |signOffs[1..]| && signOffs[1..][k] == s;
        assert signOffs[k + 1] == s && first.docId != s.docId;
        assert mid[i] == docs[i];
      }
    }
  }

  /** Clearing the same documents with the same inspectors in any order ends in the
      same case with the same number of announcements. */
  lemma {:induction false} OrderDoesNotMatter(h: History, signOffs: seq<SignOff>, reordered: seq<SignOff>)
    requires Pending(h.state.docs, signOffs) && !Decided(h.state.status)
    requires h.state.status == DocumentVerification ==> !Complete(h.state.docs)
    requires multiset(signOffs) == multiset(reordered)
    ensures VerifyAll(h, signOffs) == VerifyAll(h, reordered)
  {
    forall s
      ensures s in signOffs <==> s in reordered
    {
      assert s in multiset(signOffs) <==> s in multiset(reordered);
    }
    ReorderedIsPending(h.state.docs, signOffs, reordered);
    SignOffOutcome(h, signOffs);
    SignOffOutcome(h, reordered);
    SignedOneWay(h.state.docs, signOffs, reordered, VerifyAll(h, signOffs).state.docs,
                 VerifyAll(h, reordered).state.docs);
  }

  lemma {:induction false} SignedOneWay(docs: seq<Doc>, signOffs: seq<SignOff>, reordered: seq<SignOff>, a: seq<Doc>,
                                        b: seq<Doc>)
    requires forall s :: s in signOffs <==> s in reordered
    requires Signed(docs, signOffs, a) && Signed(docs, reordered, b)
    ensures a == b
  {
    forall i | 0 <= i < |docs|
      ensures a[i] == b[i]
    {
      if s :| s in signOffs && s.docId == docs[i].id {
        assert s in reordered;
      }
    }
  }

  lemma {:induction false} ReorderedIsPending(docs: seq<Doc>, signOffs: seq<SignOff>, reordered: seq<SignOff>)
    requires Pending(docs, signOffs) && multiset(signOffs) == multiset(reordered)
    ensures Pending(docs, reordered)
  {
    forall k | 0 <= k < |reordered|
      ensures ValidInspector(reordered[k].inspector)
      ensures Awaits(docs, reordered[k].docId)
    {
      assert reordered[k] in multiset(reordered);
      var l :| 0 <= l < |signOffs| && signOffs[l] == reordered[k];
    }
    forall k, l | 0 <= k < l < |reordered|
      ensures reordered[k].docId != reordered[l].docId
    {
      DistinctSurvives(signOffs, reordered, k, l);
    }
  }

  lemma {:induction false} DistinctSurvives(signOffs: seq<SignOff>, reordered: seq<SignOff>, k: nat, l: nat)
    requires multiset(signOffs) == multiset(reordered) && k < l < |reordered|
    requires forall i, j :: 0 <= i < j < |signOffs| ==> signOffs[i].docId != signOffs[j].docId
    ensures reordered[k].docId != reordered[l].docId
  {
    assert reordered[k] in multiset(reordered) && reordered[l] in multiset(reordered);
    var i :| 0 <= i < |signOffs| && signOffs[i] == reordered[k];
    var j :| 0 <= j < |signOffs| && signOffs[j] == reordered[l];
    if i == j {
      TwiceInMultiset(reordered, k, l);
      OnceInMultiset(signOffs, i);
      assert false;
    }
  }

  lemma {:induction false} TwiceInMultiset(s: seq<SignOff>, k: nat, l: nat)
    requires k < l < |s| && s[k] == s[l]
    ensures multiset(s)[s[k]] >= 2
  {
    assert s == s[..l] + s[l..] && s[..l][k] == s[k] && s[l..][0] == s[k];
    assert s[k] in multiset(s[..l]) && s[k] in multiset(s[l..]);
  }

  lemma {:induction false} OnceInMultiset(s: seq<SignOff>, i: nat)
    requires i < |s|
    requires forall j :: 0 <= j < |s| && j != i ==> s[j] != s[i]
    ensures multiset(s)[s[i]] == 1
  {
    assert s == s[..i] + [s[i]] + s[i + 1..];
    assert s[i] !in s[..i] && s[i] !in s[i + 1..];
  }
}
