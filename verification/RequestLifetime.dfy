/** The lifetime of a single-file request: two clocks, one monotonic deadline
    fixed when the request is checked, and the review it is carried through. */
module RequestLifetime {
  import opened Options

  newtype Byte = x: int | 0 <= x < 256
  type U64 = x: int | 0 <= x < 0x1_0000_0000_0000_0000

  const MAX_FILE_BYTES: nat := 256 * 1024
  const MAX_REQUEST_BYTES: nat := 1024 * 1024
  const MAX_LIFETIME_MS: nat := 600_000

  datatype Identity = Identity(volume: nat, index: nat)

  datatype Content = Content(size: nat, sha256: string, base64: string)

  datatype ObservedFile = ObservedFile(
    identity: Identity, modified: nat, content: Content, securitySha256: string, metadataSha256: string)

  datatype Record = Record(version: nat, id: string, sha256: string)

  datatype Operation =
    | Replace(original: ObservedFile, text: Content)
    | RestoreMissing(record: Record, original: ObservedFile, candidate: ObservedFile)
    | UndoInstalled(record: Record, original: ObservedFile, candidate: ObservedFile)
  {
    /** The content the operation would put in place of the original's, or back. */
    function Proposed(): Content {
      if Replace? then text else candidate.content
    }
  }

  datatype Request = Request(
    version: nat, operationId: string, reviewId: string, rootSelectionId: string, issuedAtMs: U64, expiresAtMs: U64,
    root: string, rootIdentity: Identity, parentIdentity: Identity, path: string, operation: Operation)

  datatype Place = Missing | Original | Candidate

  datatype Document = Document(
    operationId: string, reviewId: string, rootSelectionId: string, root: string, path: string, expiresAtMs: U64,
    requestSha256: string, from: Place, to: Place, original: Content, candidate: Content, retained: Place)

  /** Rules taken as given: identities, paths, UTF-8, SHA-256, Base64 and JSON. */
  datatype Rules = Rules(
    id: string -> bool, root: string -> bool, relative: string -> bool, utf8: seq<Byte> -> bool,
    sha256: seq<Byte> -> string, base64: seq<Byte> -> string, unbase64: string -> Option<seq<Byte>>,
    serialize: Request -> seq<Byte>, deserialize: seq<Byte> -> Option<Request>,
    serializeDocument: Document -> seq<Byte>)

  // ----- the durable facts -----

  predicate ValidDigest(s: string) {
    |s| == 64 && forall i :: 0 <= i < 64 ==> '0' <= s[i] <= '9' || 'a' <= s[i] <= 'f'
  }

  function FromBytes(rules: Rules, bytes: seq<Byte>): Option<Content> {
    if |bytes| > MAX_FILE_BYTES then None
    else Some(Content(|bytes|, rules.sha256(bytes), rules.base64(bytes)))
  }

  function DecodeContent(rules: Rules, c: Content): Option<seq<Byte>> {
    if c.size > MAX_FILE_BYTES || |c.base64| > (MAX_FILE_BYTES + 2) / 3 * 4 || !ValidDigest(c.sha256) then None
    else
      var bytes := rules.unbase64(c.base64);
      if bytes == None || |bytes.value| != c.size || rules.sha256(bytes.value) != c.sha256
         || rules.base64(bytes.value) != c.base64
      then None else bytes
  }

  function ValidateFile(rules: Rules, f: ObservedFile): Option<seq<Byte>> {
    if !ValidDigest(f.securitySha256) || !ValidDigest(f.metadataSha256) then None else DecodeContent(rules, f.content)
  }

  predicate WholeText(rules: Rules, bytes: seq<Byte>) {
    0 !in bytes && rules.utf8(bytes)
  }

  /** validate_persisted: everything but whether the window is still open. */
  predicate Persisted(rules: Rules, r: Request) {
    && r.version == 1 && rules.id(r.operationId) && rules.id(r.reviewId) && rules.id(r.rootSelectionId)
    && r.issuedAtMs != 0 && r.issuedAtMs < r.expiresAtMs && r.expiresAtMs - r.issuedAtMs <= MAX_LIFETIME_MS
    && rules.root(r.root) && rules.relative(r.path)
    && r.rootIdentity.volume == r.parentIdentity.volume
    && OperationOk(rules, r.operation, r.parentIdentity.volume)
  }

  predicate OperationOk(rules: Rules, op: Operation, volume: nat) {
    var before := ValidateFile(rules, op.original);
    var after := if op.Replace? then DecodeContent(rules, op.text) else ValidateFile(rules, op.candidate);
    && before.Some? && after.Some?
    && (if op.Replace?
        then WholeText(rules, before.value) && WholeText(rules, after.value)
        else && op.record.version == 2 && rules.id(op.record.id) && ValidDigest(op.record.sha256)
             && op.original.identity != op.candidate.identity && op.candidate.identity.volume == volume)
    && op.original.identity.volume == volume && before.value != after.value
  }

  // ----- the two clocks -----

  predicate WindowOpen(r: Request, now: U64) {
    && r.issuedAtMs != 0 && r.issuedAtMs <= now && now < r.expiresAtMs
    && 0 < r.expiresAtMs - r.issuedAtMs <= MAX_LIFETIME_MS
  }

  /** What is left of an open window. All subtractions of milliseconds are made
      here: inside the window the unsigned difference never wraps, is never zero
      and never exceeds the longest lifetime a request may declare. */
  function Remaining(r: Request, now: U64): (ms: U64)
    requires WindowOpen(r, now)
    ensures 0 < ms <= MAX_LIFETIME_MS
  {
    r.expiresAtMs - now
  }

  /** `deadline` is an instant of the monotonic clock, in milliseconds. */
  datatype CheckedRequest = CheckedRequest(request: Request, deadline: nat)

  predicate CheckTime(c: CheckedRequest, instant: nat, now: U64) {
    instant < c.deadline && WindowOpen(c.request, now)
  }

  function Encode(rules: Rules, c: CheckedRequest, instant: nat, now: U64): Option<seq<Byte>> {
    if !CheckTime(c, instant, now) || !Persisted(rules, c.request) || !WindowOpen(c.request, now) then None
    else if |rules.serialize(c.request)| > MAX_REQUEST_BYTES then None
    else Some(rules.serialize(c.request))
  }

  /** `first` and `second` are the two clock readings the operation makes. */
  function FromLocal(rules: Rules, r: Request, first: nat, second: nat, now: U64): Option<CheckedRequest> {
    if !Persisted(rules, r) || !WindowOpen(r, now) then None
    else
      var c := CheckedRequest(r, first + Remaining(r, now));
      if Encode(rules, c, second, now) == None then None else Some(c)
  }

  function Decode(rules: Rules, bytes: seq<Byte>, instant: nat, now: U64): Option<CheckedRequest> {
    if bytes == [] || |bytes| > MAX_REQUEST_BYTES then None
    else
      var r := rules.deserialize(bytes);
      if r == None || !Persisted(rules, r.value) || !WindowOpen(r.value, now) then None
      else Some(CheckedRequest(r.value, instant + Remaining(r.value, now)))
  }

  function WaitDeadline(c: CheckedRequest, first: nat, second: nat, now: U64): Option<nat> {
    if !CheckTime(c, second, now) then None
    else
      var declared := first + Remaining(c.request, now);
      Some(if declared < c.deadline then declared else c.deadline)
  }

  // ----- review -----

  datatype PendingReview = PendingReview(request: CheckedRequest, document: Document, documentSha256: string)

  datatype ReviewedIntent = ReviewedIntent(request: CheckedRequest, documentSha256: string)

  datatype Decision = Cancel | Continue

  datatype Decided = Failed | Cancelled | Continued(intent: ReviewedIntent)

  function Direction(op: Operation): (Place, Place, Place) {
    match op
    case Replace(_, _) => (Original, Candidate, Original)
    case RestoreMissing(_, _, _) => (Missing, Original, Candidate)
    case UndoInstalled(_, _, _) => (Candidate, Original, Candidate)
  }

  function Shown(rules: Rules, c: Content): Option<Content> {
    var bytes := DecodeContent(rules, c);
    if bytes == None then None else FromBytes(rules, bytes.value)
  }

  /** PendingReview::new. */
  function NewReview(rules: Rules, c: CheckedRequest, first: nat, second: nat, now: U64): Option<PendingReview> {
    var encoded := Encode(rules, c, first, now);
    if encoded == None then None
    else
      var (from, to, retained) := Direction(c.request.operation);
      var original := Shown(rules, c.request.operation.original.content);
      var candidate := Shown(rules, c.request.operation.Proposed());
      if original == None || candidate == None then None
      else
        var r := c.request;
        var document := Document(
          r.operationId, r.reviewId, r.rootSelectionId, r.root, r.path, r.expiresAtMs,
          rules.sha256(encoded.value), from, to, original.value, candidate.value, retained);
        var sha := rules.sha256(rules.serializeDocument(document));
        if !CheckTime(c, second, now) then None else Some(PendingReview(c, document, sha))
  }

  function ReadDocument(p: PendingReview, instant: nat, now: U64): Option<(Document, string)> {
    if CheckTime(p.request, instant, now) then Some((p.document, p.documentSha256)) else None
  }

  /** Consumes the review whatever it answers. */
  function Decide(rules: Rules, p: PendingReview, decision: Decision, displayed: string, rootId: string,
                  first: nat, second: nat, now: U64): Decided
  {
    if !CheckTime(p.request, first, now) then Failed
    else if decision != Continue then Cancelled
    else if displayed != p.documentSha256 || rootId != p.request.request.rootSelectionId then Failed
    else
      var encoded := Encode(rules, p.request, second, now);
      if encoded == None || rules.sha256(encoded.value) != p.document.requestSha256 then Failed
      else Continued(ReviewedIntent(p.request, p.documentSha256))
  }

  function IntoUnapproved(intent: ReviewedIntent, instant: nat, now: U64): Option<CheckedRequest> {
    if CheckTime(intent.request, instant, now) then Some(intent.request) else None
  }

  // ----- one instance over a whole run -----

  /** Who owns the checked request. */
  datatype Holder =
    | Checked(request: CheckedRequest)
    | Reviewing(review: PendingReview)
    | Reviewed(intent: ReviewedIntent)
    | Consumed

  /** What is done with it, and what both clocks read while that happens. */
  datatype Deed =
    | DoEncode | DoWait | DoReview | DoDocument | DoDecide(decision: Decision, displayed: string, rootId: string)
    | DoHandOff

  datatype Use = Use(deed: Deed, first: nat, second: nat, now: U64)

  function Perform(rules: Rules, h: Holder, use: Use): (Holder, bool) {
    match use.deed
    case DoEncode => (h, h.Checked? && Encode(rules, h.request, use.first, use.now).Some?)
    case DoWait => (h, h.Checked? && WaitDeadline(h.request, use.first, use.second, use.now).Some?)
    case DoReview =>
      if !h.Checked? then (h, false)
      else
        var p := NewReview(rules, h.request, use.first, use.second, use.now);
        if p.Some? then (Reviewing(p.value), true) else (Consumed, false)
    case DoDocument => (h, h.Reviewing? && ReadDocument(h.review, use.first, use.now).Some?)
    case DoDecide(decision, displayed, rootId) =>
      if !h.Reviewing? then (h, false)
      else
        var d := Decide(rules, h.review, decision, displayed, rootId, use.first, use.second, use.now);
        if d.Continued? then (Reviewed(d.intent), true) else (Consumed, d.Cancelled?)
    case DoHandOff =>
      if !h.Reviewed? then (h, false)
      else
        var c := IntoUnapproved(h.intent, use.first, use.now);
        if c.Some? then (Checked(c.value), true) else (Consumed, false)
  }

  function After(rules: Rules, c: CheckedRequest, uses: seq<Use>): Holder {
    if uses == [] then Checked(c)
    else Perform(rules, After(rules, c, uses[..|uses| - 1]), uses[|uses| - 1]).0
  }

  predicate Succeeds(rules: Rules, c: CheckedRequest, uses: seq<Use>, k: nat)
    requires k < |uses|
  {
    Perform(rules, After(rules, c, uses[..k]), uses[k]).1
  }

  ghost predicate Owns(h: Holder, c: CheckedRequest) {
    match h
    case Checked(request) => request == c
    case Reviewing(review) => review.request == c
    case Reviewed(intent) => intent.request == c
    case Consumed => true
  }

  /** Every owner holds the very request checked at the start, deadline included. */
  lemma {:induction false} DeadlineNeverMoves(rules: Rules, c: CheckedRequest, uses: seq<Use>)
    ensures Owns(After(rules, c, uses), c)
  {
    hide Encode, DecodeContent, Persisted;
    if uses != [] {
      DeadlineNeverMoves(rules, c, uses[..|uses| - 1]);
    }
  }

  /** The last reading of the monotonic clock a use makes when it succeeds. */
  function LastReading(use: Use): nat {
    if use.deed.DoWait? || use.deed.DoReview? || (use.deed.DoDecide? && use.deed.decision == Continue)
    then use.second else use.first
  }

  /** A success needs both clocks: before the monotonic deadline, and inside the
      declared window by the wall clock read at that moment. */
  lemma SuccessNeedsBothClocks(rules: Rules, c: CheckedRequest, uses: seq<Use>, k: nat)
    requires k < |uses| && Succeeds(rules, c, uses, k)
    ensures LastReading(uses[k]) < c.deadline
    ensures c.request.issuedAtMs <= uses[k].now < c.request.expiresAtMs
  {
    hide After, Persisted, DecodeContent;
    DeadlineNeverMoves(rules, c, uses[..k]);
  }

  /** The deadline is fixed at creation, at most ten minutes after it. */
  lemma DeadlineIsBounded(rules: Rules, r: Request, bytes: seq<Byte>, first: nat, second: nat, now: U64)
    requires first <= second
    ensures FromLocal(rules, r, first, second, now).Some? ==>
      var c := FromLocal(rules, r, first, second, now).value;
      c.request == r && c.deadline == first + (r.expiresAtMs - now) && second < c.deadline <= first + MAX_LIFETIME_MS
    ensures Decode(rules, bytes, first, now).Some? ==>
      var c := Decode(rules, bytes, first, now).value;
      c.deadline == first + (c.request.expiresAtMs - now) && first < c.deadline <= first + MAX_LIFETIME_MS
  {
    hide OperationOk, ValidDigest;
  }

  /** `c` was made at the instant `created`, with the wall clock at `wall`, from a
      local request or from received bytes. */
  ghost predicate MadeAt(rules: Rules, c: CheckedRequest, created: nat, wall: U64) {
    || (exists r, checked :: created <= checked && FromLocal(rules, r, created, checked, wall) == Some(c))
    || (exists bytes :: Decode(rules, bytes, created, wall) == Some(c))
  }

  /** For any wall-clock readings, also ones that go back: everything that ever
      succeeds for a request made at `created`, in either way, does so within the
      time its window had left then, and so within ten minutes. */
  lemma NothingSucceedsAfterTenMinutes(rules: Rules, c: CheckedRequest, created: nat, wall: U64,
                                       uses: seq<Use>, k: nat)
    requires MadeAt(rules, c, created, wall)
    requires k < |uses| && Succeeds(rules, c, uses, k)
    ensures LastReading(uses[k]) < created + (c.request.expiresAtMs - wall) <= created + MAX_LIFETIME_MS
  {
    hide Succeeds, FromLocal, Decode;
    if exists r, checked :: created <= checked && FromLocal(rules, r, created, checked, wall) == Some(c) {
      var r, checked :| created <= checked && FromLocal(rules, r, created, checked, wall) == Some(c);
      DeadlineIsBounded(rules, r, [], created, checked, wall);
    } else {
      var bytes :| Decode(rules, bytes, created, wall) == Some(c);
      DeadlineIsBounded(rules, c.request, bytes, created, created, wall);
    }
    SuccessNeedsBothClocks(rules, c, uses, k);
  }

  /** For a request that was checked, time is in order exactly before its deadline
      and inside its declared window, start included and end excluded. */
  lemma TimeIsInOrder(rules: Rules, c: CheckedRequest, instant: nat, now: U64)
    requires Persisted(rules, c.request)
    ensures CheckTime(c, instant, now) <==>
              instant < c.deadline && c.request.issuedAtMs <= now < c.request.expiresAtMs
  {
    hide OperationOk;
  }

  /** Windows may be up to ten minutes long, and no longer, whatever else the request says. */
  lemma WindowsMayBeTenMinutes(rules: Rules, r: Request, expires: U64)
    requires Persisted(rules, r)
    ensures Persisted(rules, r.(expiresAtMs := expires)) <==> 0 < expires - r.issuedAtMs <= 600_000
  {
    hide OperationOk;
  }

  /** A local request is accepted exactly if its facts are sound, its window is open,
      its encoding fits, and the check did not outlast the window. */
  lemma LocalRequestsAreAccepted(rules: Rules, r: Request, first: nat, second: nat, now: U64)
    ensures FromLocal(rules, r, first, second, now).Some? <==>
              && Persisted(rules, r) && r.issuedAtMs <= now < r.expiresAtMs
              && second < first + (r.expiresAtMs - now) && |rules.serialize(r)| <= 1024 * 1024
  {
    hide OperationOk;
  }

  /** A wait is granted up to the earlier of the deadline and the declared expiry, so
      it ends in the future and never outlives the deadline. */
  lemma WaitEndsByDeadline(c: CheckedRequest, first: nat, second: nat, now: U64)
    requires first <= second && WaitDeadline(c, first, second, now).Some?
    ensures first < WaitDeadline(c, first, second, now).value <= c.deadline
    ensures WaitDeadline(c, first, second, now).value <= first + MAX_LIFETIME_MS
    ensures var granted, declared := WaitDeadline(c, first, second, now).value,
      first + (c.request.expiresAtMs - now);
      granted <= declared && (granted == declared || granted == c.deadline)
  {
  }

  /** Checking the same bytes again mints a later deadline exactly when the wall
      clock fell behind the monotonic one in between. */
  lemma RecheckExtendsOnlyIfWallLags(rules: Rules, bytes: seq<Byte>, first: nat, wall: U64, later: nat, laterWall: U64)
    requires Decode(rules, bytes, first, wall).Some? && Decode(rules, bytes, later, laterWall).Some?
    ensures Decode(rules, bytes, later, laterWall).value.deadline > Decode(rules, bytes, first, wall).value.deadline
            <==> later - first > laterWall - wall
  {
  }

  /** What one side encodes, the other decodes exactly while its own wall clock is
      inside the declared window, to the same request and with the deadline its own
      clocks give. */
  lemma EncodedRequestsDecode(rules: Rules, c: CheckedRequest, instant: nat, now: U64, there: nat, thereNow: U64)
    requires rules.serialize(c.request) != [] && rules.deserialize(rules.serialize(c.request)) == Some(c.request)
    requires Encode(rules, c, instant, now).Some?
    ensures Decode(rules, Encode(rules, c, instant, now).value, there, thereNow) ==
              if WindowOpen(c.request, thereNow)
              then Some(CheckedRequest(c.request, there + (c.request.expiresAtMs - thereNow)))
              else None
  {
    hide Persisted;
  }

  /** Content made from bytes decodes to those bytes, and content that decodes is the
      content made from what it decodes to. */
  lemma ContentRoundTrips(rules: Rules, bytes: seq<Byte>, c: Content)
    requires rules.unbase64(rules.base64(bytes)) == Some(bytes) && ValidDigest(rules.sha256(bytes))
    requires |rules.base64(bytes)| == (|bytes| + 2) / 3 * 4
    ensures FromBytes(rules, bytes) == Some(c) <==> DecodeContent(rules, c) == Some(bytes)
    ensures FromBytes(rules, bytes).Some? <==> |bytes| <= 256 * 1024
  {
    assert |bytes| <= MAX_FILE_BYTES ==> (|bytes| + 2) / 3 <= (MAX_FILE_BYTES + 2) / 3;
  }

  /** Which operations are accepted once both contents decode: a replacement of text
      by other text, or a restore or undo between two different files of one volume
      with a record of version 2. */
  lemma OperationsAreAccepted(rules: Rules, op: Operation, volume: nat, before: seq<Byte>, after: seq<Byte>)
    requires ValidateFile(rules, op.original) == Some(before)
    requires (if op.Replace? then DecodeContent(rules, op.text) else ValidateFile(rules, op.candidate)) == Some(after)
    ensures OperationOk(rules, op, volume) <==>
      && before != after && op.original.identity.volume == volume
      && match op
         case Replace(_, _) => 0 !in before && 0 !in after && rules.utf8(before) && rules.utf8(after)
         case RestoreMissing(record, original, candidate) =>
           && record.version == 2 && rules.id(record.id) && ValidDigest(record.sha256)
           && candidate.identity.volume == volume && original.identity != candidate.identity
         case UndoInstalled(record, original, candidate) =>
           && record.version == 2 && rules.id(record.id) && ValidDigest(record.sha256)
           && candidate.identity.volume == volume && original.identity != candidate.identity
  {
    hide DecodeContent, ValidDigest;
  }

  // ----- what a review shows and when it goes through -----

  lemma ShownIsContent(rules: Rules, c: Content)
    requires DecodeContent(rules, c).Some?
    ensures Shown(rules, c) == Some(c)
  {
  }

  /** A review opens exactly when the request encodes and its time has not run out
      meanwhile; it then shows the request's own two contents, which differ. */
  lemma ReviewShowsRequest(rules: Rules, c: CheckedRequest, first: nat, second: nat, now: U64)
    ensures NewReview(rules, c, first, second, now).Some? <==>
              Encode(rules, c, first, now).Some? && CheckTime(c, second, now)
    ensures NewReview(rules, c, first, second, now).Some? ==>
      var p := NewReview(rules, c, first, second, now).value;
      && p.request == c && p.document.path == c.request.path && p.document.root == c.request.root
      && p.document.requestSha256 == rules.sha256(rules.serialize(c.request))
      && p.document.original == c.request.operation.original.content
      && p.document.candidate == c.request.operation.Proposed()
      && DecodeContent(rules, p.document.original) != DecodeContent(rules, p.document.candidate)
      && p.document.to != p.document.from && p.document.to != p.document.retained
  {
    hide DecodeContent, ValidDigest, Shown;
    if Encode(rules, c, first, now).Some? {
      ShownIsContent(rules, c.request.operation.original.content);
      ShownIsContent(rules, c.request.operation.Proposed());
    }
  }

  /** A decision to continue goes through exactly when both times hold and what
      was displayed and selected is this review's: the request cannot drift. */
  lemma DecisionBindsDocument(rules: Rules, c: CheckedRequest, a: nat, b: nat, wall: U64, decision: Decision,
                              displayed: string, rootId: string, first: nat, second: nat, now: U64)
    requires NewReview(rules, c, a, b, wall).Some?
    ensures var p := NewReview(rules, c, a, b, wall).value;
      Decide(rules, p, decision, displayed, rootId, first, second, now).Continued? <==>
        && decision == Continue && displayed == p.documentSha256 && rootId == c.request.rootSelectionId
        && CheckTime(c, first, now) && CheckTime(c, second, now)
    ensures var p := NewReview(rules, c, a, b, wall).value;
      Decide(rules, p, decision, displayed, rootId, first, second, now).Cancelled? <==>
        decision == Cancel && CheckTime(c, first, now)
    ensures var p := NewReview(rules, c, a, b, wall).value;
      var d := Decide(rules, p, decision, displayed, rootId, first, second, now);
      d.Continued? ==> d.intent == ReviewedIntent(c, p.documentSha256)
  {
    hide Persisted, Shown;
  }

  /** What a review says about the file: what is there now, what will be there, and
      which of the two objects is kept aside. */
  lemma ReviewTellsDirection(rules: Rules, c: CheckedRequest, first: nat, second: nat, now: U64)
    requires NewReview(rules, c, first, second, now).Some?
    ensures var d := NewReview(rules, c, first, second, now).value.document;
      match c.request.operation
      case Replace(_, _) => d.from == Original && d.to == Candidate && d.retained == Original
      case RestoreMissing(_, _, _) => d.from == Missing && d.to == Original && d.retained == Candidate
      case UndoInstalled(_, _, _) => d.from == Candidate && d.to == Original && d.retained == Candidate
  {
    hide Persisted, Shown, CheckTime;
  }

  /** A presented document can be read, and an intent handed on, exactly while both
      clocks allow it; the reader gets the document of the review, and the next
      owner the request that was first checked. */
  lemma ReadAndHandOffNeedTime(rules: Rules, c: CheckedRequest, a: nat, b: nat, wall: U64, displayed: string,
                               rootId: string, first: nat, second: nat, later: U64, instant: nat, now: U64)
    requires NewReview(rules, c, a, b, wall).Some?
    requires Decide(rules, NewReview(rules, c, a, b, wall).value, Continue, displayed, rootId, first, second,
                    later).Continued?
    ensures var p := NewReview(rules, c, a, b, wall).value;
      var intent := Decide(rules, p, Continue, displayed, rootId, first, second, later).intent;
      var inTime := instant < c.deadline && c.request.issuedAtMs <= now < c.request.expiresAtMs;
      && ReadDocument(p, instant, now) == (if inTime then Some((p.document, displayed)) else None)
      && IntoUnapproved(intent, instant, now) == (if inTime then Some(c) else None)
  {
    hide Persisted, Shown;
    DecisionBindsDocument(rules, c, a, b, wall, Continue, displayed, rootId, first, second, later);
    TimeIsInOrder(rules, c, instant, now);
  }

  /** A review answers once: after a decision, until the next review is opened,
      no document is shown and no decision goes through. */
  lemma {:induction false} DecisionsAreSingleUse(rules: Rules, c: CheckedRequest, uses: seq<Use>, k: nat, m: nat)
    requires k < m < |uses| && uses[k].deed.DoDecide?
    requires uses[m].deed.DoDecide? || uses[m].deed.DoDocument?
    requires forall j :: k < j < m ==> !uses[j].deed.DoReview?
    ensures !Succeeds(rules, c, uses, m)
  {
    hide NewReview, Decide;
    NoReviewWithoutOpening(rules, c, uses, k, m);
  }

  lemma {:induction false} NoReviewWithoutOpening(rules: Rules, c: CheckedRequest, uses: seq<Use>, k: nat, m: nat)
    requires k < m <= |uses| && uses[k].deed.DoDecide?
    requires forall j :: k < j < m ==> !uses[j].deed.DoReview?
    ensures !After(rules, c, uses[..m]).Reviewing?
  {
    hide NewReview, Decide;
    assert uses[..m][..m - 1] == uses[..m - 1];
    if m > k + 1 {
      NoReviewWithoutOpening(rules, c, uses, k, m - 1);
    }
  }
}
