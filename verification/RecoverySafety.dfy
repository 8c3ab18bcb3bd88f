/** Safety of side effects over every sequence of executions, crashes and recoveries. */
module RecoverySafety {
  import opened Outcomes
  import opened Text
  import opened Workspace
  import opened Receipts
  import opened RunJournal
  import opened ActionSpec

  datatype RecoveryOp =
    | Run(call: Call, freshId: string)
    | Retry(key: Key, runId: string, reason: string)
    | SayCommitted(key: Key, runId: string, ref: ResultRef, evidence: seq<Evidence>)
    | SayFailed(key: Key, runId: string, reason: string, evidence: seq<Evidence>)
    | Reconcile(key: Key, runId: string)
    | OutsideEdit(tree: Tree)

  function Act(w: World, op: RecoveryOp): World {
    match op
    case Run(call, id) => Execute(w, call, id).0
    case Retry(key, run, reason) => AuthorizeRetry(w, key, run, reason).0
    case SayCommitted(key, run, ref, evidence) => ResolveCommitted(w, key, run, ref, evidence).0
    case SayFailed(key, run, reason, evidence) => ResolveFailed(w, key, run, reason, evidence).0
    case Reconcile(key, run) => ResolveIfMatches(w, key, run).0
    case OutsideEdit(tree) => w.(tree := tree)
  }

  function ActAll(w: World, ops: seq<RecoveryOp>): World
    decreases |ops|
  {
    if ops == [] then w else ActAll(Act(w, ops[0]), ops[1..])
  }

  /** No receipt and no handler entry yet; the journal and the workspace may hold anything. */
  function FreshWorld(tree: Tree, events: seq<RunEvent>): World {
    World(map[], events, tree, [])
  }

  /** Receipts sit under their own key, and a handler entry for a key implies a receipt for it. */
  ghost predicate Guarded(w: World) {
    && (forall k :: k in w.ledger ==> w.ledger[k].key == k)
    && (forall k :: k in w.entries ==> k in w.ledger)
    && (forall i, j :: 0 <= i < j < |w.entries| ==> w.entries[i] != w.entries[j])
  }

  /** The call would pass every check that comes before the receipt lookup. */
  predicate ReachesReceipt(call: Call) {
    && !Blank(call.toolId) && !BadContext(call) && call.allowed && call.argumentsValid && call.sideEffecting
    && HasContext(call) && CallKey(call) != ""
  }

  /** A call that stops before the receipt lookup. */
  lemma StopsEarly(w: World, call: Call, freshId: string)
    requires !ReachesReceipt(call)
    ensures var (v, r) := Execute(w, call, freshId);
            !r.Crashed? && v.entries == w.entries && v.ledger == w.ledger && v.tree == w.tree
  {
    hide Handler, CallKey, Blank, Appended, Strip, Existing, Fresh;
  }

  /** A call that reaches the receipt lookup, with what it has journaled by then. */
  lemma ReachesLookup(w: World, call: Call, freshId: string) returns (noted: World)
    requires ReachesReceipt(call)
    ensures noted == w.(events := noted.events)
    ensures Execute(w, call, freshId) == if KeyOf(call) in w.ledger then Existing(noted, call, w.ledger[KeyOf(call)])
                                         else Fresh(noted, call, freshId)
  {
    hide Handler, CallKey, Blank, Appended, Strip, Existing, Fresh;
    noted := Note(Note(w, call, ActionProposed(call.toolId, CallKey(call))), call,
                  ActionAuthorized(call.toolId, call.allowed));
  }

  /** Exactly which calls enter the handler, and what they enter it for. */
  lemma HandlerEnteredIff(w: World, call: Call, freshId: string)
    ensures Execute(w, call, freshId).0.entries
         == if ReachesReceipt(call) && KeyOf(call) !in w.ledger && Metadata(call).Ok? &&
         call.crash != Some(AfterReserved)
            then w.entries + [KeyOf(call)] else w.entries
  {
    hide Execute, ReachesReceipt, Handler, Metadata, CallKey, Blank, Appended;
    if ReachesReceipt(call) {
      var noted := ReachesLookup(w, call, freshId);
    } else {
      StopsEarly(w, call, freshId);
    }
  }

  /** A receipt never leaves the ledger and never changes its request; committed ones never change at all. */
  ghost predicate Monotone(a: Ledger, b: Ledger) {
    forall k :: k in a ==> k in b && b[k].key == a[k].key && b[k].request == a[k].request && b[k].target == a[k].target
                           && (a[k].state.Committed? ==> b[k] == a[k])
  }

  /** Whether the call reserves a new receipt. */
  predicate Reserves(w: World, call: Call) {
    ReachesReceipt(call) && KeyOf(call) !in w.ledger && Metadata(call).Ok?
  }

  function Reserved(call: Call, freshId: string): Receipt
    requires HasContext(call) && Metadata(call).Ok?
  {
    NewReceipt(freshId, KeyOf(call), call.runId.value, RequestOf(call), Metadata(call).value)
  }

  /** The state in which a first execution leaves its receipt: by crash point and handler outcome. */
  function LeftState(call: Call, tree: Tree): ReceiptState {
    var output := Handler(call, tree).1;
    if call.crash == Some(AfterReserved) then Started
    else if output.Err? then Failed
    else if call.crash == Some(AfterHandler) then Started
    else Committed
  }

  lemma HandlerErrorsAreNotBlank(call: Call, tree: Tree)
    ensures Handler(call, tree).1.Err? ==> !Blank(Handler(call, tree).1.error)
  {
    var output := Handler(call, tree).1;
    if output.Err? {
      assert output.error[0] == 'E';
      StripKeepsFirst(output.error);
    }
  }

  lemma EnterShape(w: World, call: Call, receipt: Receipt) returns (left: Receipt)
    requires receipt.key in w.ledger && w.ledger[receipt.key] == receipt && receipt.state.Started?
    requires receipt.evidence == []
    requires call.crash != Some(AfterReserved)
    ensures Enter(w, call, receipt).0.ledger == w.ledger[receipt.key := left]
    ensures left == receipt.(state := left.state, resultRef := left.resultRef, failureReason := left.failureReason)
    ensures left.state == LeftState(call, w.tree)
    ensures Enter(w, call, receipt).0.tree == Handler(call, w.tree).0
  {
    var output := Handler(call, w.tree).1;
    if output.Err? {
      HandlerErrorsAreNotBlank(call, w.tree);
      left := FailOutcome(receipt, output.error, []).value;
    } else if call.crash == Some(AfterHandler) {
      left := receipt;
      assert w.ledger == w.ledger[receipt.key := receipt];
    } else {
      left := CommitOutcome(receipt, OutputRef(call.toolId, output.value), []).value;
    }
  }

  lemma ExecuteShape(w: World, call: Call, freshId: string) returns (left: Receipt)
    requires Reserves(w, call)
    ensures Execute(w, call, freshId).0.ledger == w.ledger[KeyOf(call) := left]
    ensures left ==
              Reserved(call, freshId).(state := left.state, resultRef := left.resultRef,
                                       failureReason := left.failureReason)
    ensures left.state == LeftState(call, w.tree)
    ensures Execute(w, call, freshId).0.tree ==
            if call.crash == Some(AfterReserved) then w.tree else Handler(call, w.tree).0
  {
    hide Execute, Handler, Metadata, Blank, CallKey, Appended, Enter;
    var noted := ReachesLookup(w, call, freshId);
    var receipt := Reserved(call, freshId);
    if call.crash == Some(AfterReserved) {
      left := receipt;
    } else {
      var reserved := Note(noted.(ledger := w.ledger[receipt.key := receipt]), call, SideEffectReserved(freshId));
      left := EnterShape(reserved, call, receipt);
      assert w.ledger[receipt.key := receipt][receipt.key := left] == w.ledger[receipt.key := left];
      assert Execute(w, call, freshId) == Enter(reserved, call, receipt);
    }
  }

  lemma NoReservation(w: World, call: Call, freshId: string)
    requires !Reserves(w, call)
    ensures Execute(w, call, freshId).0.ledger == w.ledger
    ensures Execute(w, call, freshId).0.tree == w.tree
  {
    hide Execute, ReachesReceipt, Handler, Metadata, CallKey, Blank, Appended;
    if ReachesReceipt(call) {
      var noted := ReachesLookup(w, call, freshId);
    } else {
      StopsEarly(w, call, freshId);
    }
  }

  lemma ExecuteKeepsGuarded(w: World, call: Call, freshId: string)
    requires Guarded(w)
    ensures Guarded(Execute(w, call, freshId).0)
    ensures forall k ::
              k in w.ledger ==>
              k in Execute(w, call, freshId).0.ledger && Execute(w, call, freshId).0.ledger[k] == w.ledger[k]
  {
    hide Execute, Metadata;
    HandlerEnteredIff(w, call, freshId);
    if Reserves(w, call) {
      var left := ExecuteShape(w, call, freshId);
    } else {
      NoReservation(w, call, freshId);
    }
  }

  /** A successor of a receipt: same identity, and unchanged once committed. */
  predicate Succeeds(a: Receipt, b: Receipt) {
    b.key == a.key && b.request == a.request && b.target == a.target && (a.state.Committed? ==> b == a)
  }

  /** Retrying and resolving move at most one existing receipt, and touch neither the workspace nor the history. */
  lemma RecoveryShape(w: World, op: RecoveryOp)
    requires !op.Run? && (forall k :: k in w.ledger ==> w.ledger[k].key == k)
    ensures var v := Act(w, op);
            && v.entries == w.entries
            && (v.ledger == w.ledger
                || (!op.OutsideEdit? && op.key in w.ledger && op.key in v.ledger
                    && v.ledger == w.ledger[op.key := v.ledger[op.key]] &&
                         Succeeds(w.ledger[op.key], v.ledger[op.key])))
  {
    hide Execute, Inspect, Blank, Strip, Appended;
  }

  lemma RecoveryKeepsGuarded(w: World, op: RecoveryOp)
    requires Guarded(w) && !op.Run?
    ensures Guarded(Act(w, op)) && Monotone(w.ledger, Act(w, op).ledger)
  {
    hide Act;
    RecoveryShape(w, op);
  }

  lemma ActKeepsGuarded(w: World, op: RecoveryOp)
    requires Guarded(w)
    ensures Guarded(Act(w, op)) && Monotone(w.ledger, Act(w, op).ledger)
  {
    hide Execute, ResolveIfMatches, ResolveCommitted, ResolveFailed, AuthorizeRetry;
    if op.Run? {
      ExecuteKeepsGuarded(w, op.call, op.freshId);
    } else {
      RecoveryKeepsGuarded(w, op);
    }
  }

  lemma MonotoneTransitive(a: Ledger, b: Ledger, c: Ledger)
    requires Monotone(a, b) && Monotone(b, c)
    ensures Monotone(a, c)
  {
  }

  lemma {:induction false} RunKeepsGuarded(w: World, ops: seq<RecoveryOp>)
    requires Guarded(w)
    ensures Guarded(ActAll(w, ops)) && Monotone(w.ledger, ActAll(w, ops).ledger)
    decreases |ops|
  {
    if ops != [] {
      ActKeepsGuarded(w, ops[0]);
      RunKeepsGuarded(Act(w, ops[0]), ops[1..]);
      MonotoneTransitive(w.ledger, Act(w, ops[0]).ledger, ActAll(w, ops).ledger);
    }
  }

  /** For each key a side-effecting handler is entered at most once, whatever crashes and recoveries happen. */
  lemma HandlerEnteredAtMostOnce(tree: Tree, events: seq<RunEvent>, ops: seq<RecoveryOp>, k: Key)
    ensures multiset(ActAll(FreshWorld(tree, events), ops).entries)[k] <= 1
  {
    var w := FreshWorld(tree, events);
    RunKeepsGuarded(w, ops);
    DistinctMeansOnce(ActAll(w, ops).entries, k);
  }

  lemma {:induction false} DistinctMeansOnce(s: seq<Key>, k: Key)
    requires forall i, j :: 0 <= i < j < |s| ==> s[i] != s[j]
    ensures multiset(s)[k] <= 1
  {
    if s != [] {
      assert s == [s[0]] + s[1..];
      DistinctMeansOnce(s[1..], k);
      if s[0] == k {
        assert k !in s[1..];
        assert multiset(s[1..])[k] == 0;
      }
    }
  }

  /** Once committed, a receipt answers every later allowed call of the same request, and the handler stays out. */
  lemma CommittedAnswersForever(w: World, ops: seq<RecoveryOp>, k: Key, call: Call, freshId: string)
    requires Guarded(w) && k in w.ledger && w.ledger[k].state.Committed?
    requires ReachesReceipt(call) && KeyOf(call) == k && RequestOf(call) == w.ledger[k].request
    ensures var later := ActAll(w, ops);
            var (v, r) := Execute(later, call, freshId);
            && k in later.ledger && later.ledger[k] == w.ledger[k]
            && r == Skipped(w.ledger[k].resultRef)
            && v.entries == later.entries && v.tree == later.tree && v.ledger == later.ledger
  {
    RunKeepsGuarded(w, ops);
  }

  /** Any call whose key has a receipt, in whatever state, changes neither the workspace nor the ledger. */
  lemma ReceiptStopsEffects(w: World, call: Call, freshId: string)
    requires HasContext(call) && call.sideEffecting && KeyOf(call) in w.ledger
    ensures var v := Execute(w, call, freshId).0; v.tree == w.tree && v.ledger == w.ledger && v.entries == w.entries
  {
    hide Execute, ReachesReceipt, Handler, Metadata, CallKey, Blank, Appended;
    if ReachesReceipt(call) {
      var noted := ReachesLookup(w, call, freshId);
    } else {
      StopsEarly(w, call, freshId);
    }
  }

  /** Authorizing a retry reopens the receipt but never the handler: the next call is refused as uncertain. */
  lemma RetryNeverReexecutes(w: World, call: Call, runId: string, reason: string, freshId: string)
    requires ReachesReceipt(call) && KeyOf(call) in w.ledger && w.ledger[KeyOf(call)].request == RequestOf(call)
    requires w.ledger[KeyOf(call)].key == KeyOf(call)
    requires AuthorizeRetry(w, KeyOf(call), runId, reason).1.Ok?
    ensures Execute(AuthorizeRetry(w, KeyOf(call), runId, reason).0, call, freshId).1 == Denied(Uncertain)
  {
  }

  // ----- reconciling a workspace write -----

  predicate WritesText(call: Call) {
    call.toolId == WRITE_TOOL && call.arguments.Write? && call.sideEffecting
  }

  /** The path a write resolves to. */
  function PathOf(call: Call): Path {
    if call.arguments.Write? && call.arguments.args.raw.Under? then call.arguments.args.raw.path else []
  }

  /** A receipt reserved by the write tool carries the path and the digest it was asked to produce. */
  ghost predicate Described(r: Receipt) {
    r.request.toolId == WRITE_TOOL && r.request.arguments.Write? ==>
      var args := r.request.arguments.args;
      args.raw.Under? && r.target == Some(WriteTarget(args.raw.path, Sha256(args.content)))
  }

  ghost predicate AllDescribed(ledger: Ledger) {
    forall k :: k in ledger ==> Described(ledger[k])
  }

  lemma ExecuteKeepsDescribed(w: World, call: Call, freshId: string)
    requires AllDescribed(w.ledger)
    ensures AllDescribed(Execute(w, call, freshId).0.ledger)
  {
    hide Execute;
    if Reserves(w, call) {
      var left := ExecuteShape(w, call, freshId);
      assert Described(left);
    } else {
      NoReservation(w, call, freshId);
    }
  }

  lemma ActKeepsDescribed(w: World, op: RecoveryOp)
    requires Guarded(w) && AllDescribed(w.ledger)
    ensures AllDescribed(Act(w, op).ledger)
  {
    if op.Run? {
      hide Execute;
      ExecuteKeepsDescribed(w, op.call, op.freshId);
    } else {
      hide Act;
      RecoveryShape(w, op);
    }
  }

  lemma {:induction false} RunKeepsDescribed(w: World, ops: seq<RecoveryOp>)
    requires Guarded(w) && AllDescribed(w.ledger)
    ensures AllDescribed(ActAll(w, ops).ledger)
    decreases |ops|
  {
    if ops != [] {
      ActKeepsGuarded(w, ops[0]);
      ActKeepsDescribed(w, ops[0]);
      RunKeepsDescribed(Act(w, ops[0]), ops[1..]);
    }
  }

  /** The key's receipt is uncertain and the file holds the content. */
  predicate Pending(w: World, key: Key, path: Path, content: Bytes) {
    key in w.ledger && w.ledger[key].state.Started? && path in w.tree.files && w.tree.files[path] == content
  }

  /** The receipt of a write committed with the file as its result. */
  function CommittedWrite(r: Receipt, args: WriteArgs): Receipt
    requires args.raw.Under?
  {
    var path, sha := args.raw.path, Sha256(args.content);
    r.(state := Committed, resultRef := Some(FileRef(path, sha)), evidence := [SeenFile(path, sha)])
  }

  /** Reconciling commits a write exactly when its receipt is uncertain and the file holds the requested content. */
  lemma ReconcileCommitsIff(w: World, key: Key, runId: string)
    requires Guarded(w) && AllDescribed(w.ledger) && key in w.ledger
    requires w.ledger[key].request.toolId == WRITE_TOOL && w.ledger[key].request.arguments.Write?
    ensures var args, v := w.ledger[key].request.arguments.args, ResolveIfMatches(w, key, runId).0;
            var commits := args.raw.Under? && Pending(w, key, args.raw.path, args.content);
            && v.ledger == (if commits then w.ledger[key := CommittedWrite(w.ledger[key], args)] else w.ledger)
            && v.tree == w.tree && v.entries == w.entries
  {
    assert Described(w.ledger[key]);
  }

  lemma CrashMeansReserved(w: World, call: Call, freshId: string)
    requires Execute(w, call, freshId).1.Crashed?
    ensures Reserves(w, call) && call.crash == Some(Execute(w, call, freshId).1.point)
    ensures call.crash != Some(AfterReserved) ==> Handler(call, w.tree).1.Ok?
  {
    hide Execute, ReachesReceipt, Handler, Metadata, CallKey, Blank, Appended;
    if ReachesReceipt(call) {
      var noted := ReachesLookup(w, call, freshId);
    } else {
      StopsEarly(w, call, freshId);
    }
  }

  /** A crashed call has reserved a new receipt, which is uncertain unless the crash came after the commit. */
  lemma CrashLeaves(w: World, call: Call, freshId: string) returns (left: Receipt)
    requires Execute(w, call, freshId).1.Crashed?
    ensures HasContext(call) && KeyOf(call) !in w.ledger
    ensures Execute(w, call, freshId).0.ledger == w.ledger[KeyOf(call) := left]
    ensures left.key == KeyOf(call) && left.request == RequestOf(call)
    ensures left.state == if Execute(w, call, freshId).1.point.AfterCommitted? then Committed else Started
  {
    hide Execute, Handler, Metadata, KeyOf, CallKey, Blank;
    CrashMeansReserved(w, call, freshId);
    left := ExecuteShape(w, call, freshId);
  }

  /** What a first call of a write leaves behind when it crashes. */
  lemma CrashedWrite(w: World, call: Call, freshId: string) returns (left: Receipt)
    requires WritesText(call) && Execute(w, call, freshId).1.Crashed?
    ensures var (v, r) := Execute(w, call, freshId);
            var args := call.arguments.args;
            && HasContext(call) && v.ledger == w.ledger[KeyOf(call) := left] && left.key == KeyOf(call) &&
                 left.request == RequestOf(call)
            && args.raw.Under?
            && (if r.point.AfterCommitted? then left.state.Committed? else left.state.Started?)
            && (if r.point.AfterReserved? then v.tree == w.tree
                else v.tree.files == w.tree.files[args.raw.path := args.content])
  {
    hide Execute;
    CrashMeansReserved(w, call, freshId);
    left := ExecuteShape(w, call, freshId);
    WriteIsAllOrNothing(w.tree, call.arguments.args, call.maxBytes);
  }

  /** An operation that neither takes the content from the path nor decides about the key. */
  predicate LeavesAlone(op: RecoveryOp, key: Key, path: Path, content: Bytes) {
    match op
    case Run(call, _) => call.arguments.Write? && call.arguments.args.raw == Under(path) ==>
                           call.arguments.args.content == content
    case Retry(_, _, _) => true
    case SayCommitted(k, _, _, _) => k != key
    case SayFailed(k, _, _, _) => k != key
    case Reconcile(k, _) => k != key
    case OutsideEdit(tree) => path in tree.files && tree.files[path] == content
  }

  lemma RunKeepsPending(w: World, call: Call, freshId: string, key: Key, path: Path, content: Bytes)
    requires Guarded(w) && Pending(w, key, path, content) && LeavesAlone(Run(call, freshId), key, path, content)
    ensures var v := Execute(w, call, freshId).0; Pending(v, key, path, content) && v.ledger[key] == w.ledger[key]
  {
    hide Execute, Metadata;
    ExecuteKeepsGuarded(w, call, freshId);
    if Reserves(w, call) {
      var left := ExecuteShape(w, call, freshId);
      HandlerKeepsFile(call, w.tree, path, content);
    } else {
      NoReservation(w, call, freshId);
    }
  }

  lemma HandlerKeepsFile(call: Call, tree: Tree, path: Path, content: Bytes)
    requires path in tree.files && tree.files[path] == content
    requires call.arguments.Write? && call.arguments.args.raw == Under(path) ==> call.arguments.args.content == content
    ensures var after := Handler(call, tree).0; path in after.files && after.files[path] == content
  {
    if call.arguments.Write? {
      WriteIsAllOrNothing(tree, call.arguments.args, call.maxBytes);
    }
  }

  lemma StepKeepsPending(w: World, op: RecoveryOp, key: Key, path: Path, content: Bytes)
    requires Guarded(w) && Pending(w, key, path, content) && LeavesAlone(op, key, path, content)
    ensures Pending(Act(w, op), key, path, content) && Act(w, op).ledger[key] == w.ledger[key]
  {
    hide Execute, Inspect, Blank, Handler;
    if op.Run? {
      RunKeepsPending(w, op.call, op.freshId, key, path, content);
    }
  }

  lemma {:induction false} HistoryKeepsPending(w: World, ops: seq<RecoveryOp>, key: Key, path: Path, content: Bytes)
    requires Guarded(w) && Pending(w, key, path, content)
    requires forall op :: op in ops ==> LeavesAlone(op, key, path, content)
    ensures Pending(ActAll(w, ops), key, path, content) && ActAll(w, ops).ledger[key] == w.ledger[key]
    decreases |ops|
  {
    hide Act, LeavesAlone;
    if ops != [] {
      StepKeepsPending(w, ops[0], key, path, content);
      ActKeepsGuarded(w, ops[0]);
      HistoryKeepsPending(Act(w, ops[0]), ops[1..], key, path, content);
    }
  }

  /**
   * A write crashes after its handler finished, and any history follows that leaves its file
   * and its key alone. Reconciling then commits the receipt, and through any further history
   * repeating the proposal is answered from the receipt and writes nothing.
   */
  lemma CrashedWriteIsRecovered(
    w: World, call: Call, freshId: string, between: seq<RecoveryOp>, runId: string, ops: seq<RecoveryOp>, again: string)
    requires Guarded(w) && AllDescribed(w.ledger)
    requires WritesText(call) && ReachesReceipt(call) && KeyOf(call) !in w.ledger
    requires Execute(w, call, freshId).1 == Crashed(AfterHandler)
    requires forall op :: op in between ==> LeavesAlone(op, KeyOf(call), PathOf(call), call.arguments.args.content)
    ensures var args, uncertain := call.arguments.args, ActAll(Execute(w, call, freshId).0, between);
            var (resolved, r) := ResolveIfMatches(uncertain, KeyOf(call), runId);
            var later := ActAll(resolved, ops);
            var (v, answer) := Execute(later, call, again);
            && r == (if Blank(runId) then Err(JournalRefused) else Ok(MatchesExpected))
            && KeyOf(call) in resolved.ledger && resolved.ledger[KeyOf(call)].state.Committed?
            && answer == Skipped(Some(FileRef(PathOf(call), Sha256(args.content))))
            && v.tree == later.tree && v.entries == later.entries
  {
    hide Execute, ResolveIfMatches, ReachesReceipt, LeavesAlone, Blank;
    KeyHasGoal(call);
    var crashed, k, args := Execute(w, call, freshId).0, KeyOf(call), call.arguments.args;
    var left := CrashedWrite(w, call, freshId);
    ExecuteKeepsGuarded(w, call, freshId);
    ExecuteKeepsDescribed(w, call, freshId);
    HistoryKeepsPending(crashed, between, k, args.raw.path, args.content);
    var uncertain := ActAll(crashed, between);
    RunKeepsGuarded(crashed, between);
    RunKeepsDescribed(crashed, between);
    ReconcileCommitsIff(uncertain, k, runId);
    ReconcileSays(uncertain, k, runId);
    ActKeepsGuarded(uncertain, Reconcile(k, runId));
    CommittedAnswersForever(ResolveIfMatches(uncertain, k, runId).0, ops, k, call, again);
  }

  lemma KeyHasGoal(call: Call)
    requires ReachesReceipt(call)
    ensures HasContext(call) && !Blank(KeyOf(call).goalId)
  {
  }

  // ----- from the empty stores -----

  lemma HistoryIsDescribed(tree: Tree, events: seq<RunEvent>, ops: seq<RecoveryOp>)
    ensures Guarded(ActAll(FreshWorld(tree, events), ops)) && AllDescribed(ActAll(FreshWorld(tree, events), ops).ledger)
  {
    RunKeepsGuarded(FreshWorld(tree, events), ops);
    RunKeepsDescribed(FreshWorld(tree, events), ops);
  }

  /** After every history reconciling commits a write exactly when it is uncertain and its file holds the content. */
  lemma ReconcileInEveryHistory(tree: Tree, events: seq<RunEvent>, ops: seq<RecoveryOp>, key: Key, runId: string)
    requires var w := ActAll(FreshWorld(tree, events), ops);
             && key in w.ledger && w.ledger[key].request.toolId == WRITE_TOOL && w.ledger[key].request.arguments.Write?
    ensures var w := ActAll(FreshWorld(tree, events), ops);
            var args, v := w.ledger[key].request.arguments.args, ResolveIfMatches(w, key, runId).0;
            var commits := args.raw.Under? && Pending(w, key, args.raw.path, args.content);
            && v.ledger == (if commits then w.ledger[key := CommittedWrite(w.ledger[key], args)] else w.ledger)
            && v.tree == w.tree && v.entries == w.entries
  {
    hide ResolveIfMatches, ActAll;
    HistoryIsDescribed(tree, events, ops);
    var w := ActAll(FreshWorld(tree, events), ops);
    assert Described(w.ledger[key]);
    ReconcileCommitsIff(w, key, runId);
  }

  /**
   * From the start: any history, a crashed write, any history around it, its reconciliation, any
   * history, the repeat.
   */
  lemma CrashedWriteIsRecoveredInEveryHistory(
    tree: Tree, events: seq<RunEvent>, before: seq<RecoveryOp>, call: Call, freshId: string,
    between: seq<RecoveryOp>, runId: string, ops: seq<RecoveryOp>, again: string)
    requires WritesText(call) && ReachesReceipt(call)
    requires KeyOf(call) !in ActAll(FreshWorld(tree, events), before).ledger
    requires Execute(ActAll(FreshWorld(tree, events), before), call, freshId).1 == Crashed(AfterHandler)
    requires forall op :: op in between ==> LeavesAlone(op, KeyOf(call), PathOf(call), call.arguments.args.content)
    ensures var w, args := ActAll(FreshWorld(tree, events), before), call.arguments.args;
            var uncertain := ActAll(Execute(w, call, freshId).0, between);
            var later := ActAll(ResolveIfMatches(uncertain, KeyOf(call), runId).0, ops);
            var (v, answer) := Execute(later, call, again);
            && answer == Skipped(Some(FileRef(PathOf(call), Sha256(args.content))))
            && v.tree == later.tree && v.entries == later.entries
  {
    hide Execute, ResolveIfMatches, ReachesReceipt, LeavesAlone, ActAll;
    HistoryIsDescribed(tree, events, before);
    var w := ActAll(FreshWorld(tree, events), before);
    CrashedWriteIsRecovered(w, call, freshId, between, runId, ops, again);
  }

  /** The blank run id is noticed after the receipt is written. */
  lemma ReconcileSays(w: World, key: Key, runId: string)
    requires key in w.ledger && Described(w.ledger[key]) && w.ledger[key].state.Started? && !Blank(key.goalId)
    requires w.ledger[key].request.toolId == WRITE_TOOL && w.ledger[key].request.arguments.Write?
    requires var args := w.ledger[key].request.arguments.args;
             args.raw.Under? && args.raw.path in w.tree.files && w.tree.files[args.raw.path] == args.content
    ensures ResolveIfMatches(w, key, runId).1 == if Blank(runId) then Err(JournalRefused) else Ok(MatchesExpected)
  {
  }
}

/** Classifying the next step after a restart (recovery/coordinator.py, recovery/crash_planner.py). */
module CrashPlanner {
  import opened Outcomes
  import opened Goals
  import opened RunJournal
  import opened Receipts
  import opened ActionSpec
  import opened RecoverySafety

  datatype ResumePlan =
    ResumePlan(runId: Option<string>, checkpointId: Option<string>, resumeAllowed: bool, journalSequence: nat)

  function PlanResume(goal: Goal, checkpoints: seq<Checkpoint>, goalId: string, runId: Option<string>): ResumePlan {
    var c := LatestCheckpoint(checkpoints, goalId, runId);
    ResumePlan(
      if c.Some? then Some(c.value.runId) else runId,
      if c.Some? then Some(c.value.checkpointId) else None,
      !goal.Terminal() && !goal.state.GoalBlocked?,
      if c.Some? then c.value.journalSequence else 0)
  }

  function PostEvents(events: seq<RunEvent>, goalId: string, plan: ResumePlan): seq<RunEvent> {
    if plan.runId.Some? then EventsAfter(events, goalId, plan.runId.value, plan.journalSequence) else []
  }

  predicate HasState(ledger: Ledger, goalId: string, state: ReceiptState) {
    exists k :: k in ledger && k.goalId == goalId && ledger[k].state == state
  }

  datatype Mode = ResumeNextAction | ReconcileSideEffect | VerifyPriorAction | WriteCheckpointFirst | Stop

  /** `CrashRecoveryPlanner.plan` with a receipt store configured. */
  function Classify(
    goal: Goal, checkpoints: seq<Checkpoint>, events: seq<RunEvent>, ledger: Ledger, goalId: string,
    runId: Option<string>): Mode
  {
    var plan := PlanResume(goal, checkpoints, goalId, runId);
    if HasState(ledger, goalId, Started) then ReconcileSideEffect
    else if !plan.resumeAllowed then Stop
    else
      var post := PostEvents(events, goalId, plan);
      if post == [] then ResumeNextAction
      else
        match post[|post| - 1].kind
        case VerificationResult(pass) => if pass then WriteCheckpointFirst else ResumeNextAction
        case ActionExecuted(_, _, _) => VerifyPriorAction
        case SideEffectCommitted(_) => VerifyPriorAction
        case _ => ResumeNextAction
  }

  /** Each answer under its condition; `last` is the kind of the newest event no checkpoint covers. */
  predicate Decided(mode: Mode, uncertain: bool, open: bool, last: Option<EventKind>) {
    && (mode.ReconcileSideEffect? <==> uncertain)
    && (mode.Stop? <==> !uncertain && !open)
    && (mode.WriteCheckpointFirst? <==> !uncertain && open && last == Some(VerificationResult(true)))
    && (mode.VerifyPriorAction? <==>
        && !uncertain && open && last.Some?
        && (last.value.ActionExecuted? || last.value.SideEffectCommitted?))
    && (mode.ResumeNextAction? <==>
        && !uncertain && open
        && (last.Some? ==>
              && !last.value.ActionExecuted? && !last.value.SideEffectCommitted?
              && last.value != VerificationResult(true)))
  }

  /** The newest event of a run, unless a checkpoint at this number covers it. */
  function Uncovered(events: seq<RunEvent>, goalId: string, runId: string, covers: nat): Option<EventKind> {
    var ours := RunEvents(events, goalId, runId);
    if covers >= |ours| then None else Some(ours[|ours| - 1].kind)
  }

  lemma PostDecides(events: seq<RunEvent>, goalId: string, runId: string, covers: nat)
    requires Numbered(events)
    ensures var post, last := EventsAfter(events, goalId, runId, covers), Uncovered(events, goalId, runId, covers);
            if post == [] then last.None? else last == Some(post[|post| - 1].kind)
  {
    hide RunEvents, EventsAfter, LatestSequence;
    var ours := RunEvents(events, goalId, runId);
    LatestIsCount(events, goalId, runId);
    if covers <= |ours| {
      EventsAfterAreTheRest(events, goalId, runId, covers);
    } else {
      NothingAfter(events, goalId, runId, covers);
    }
  }

  lemma NoMembers(events: seq<RunEvent>)
    ensures events == [] <==> forall e :: e !in events
  {
    if events != [] {
      assert events[0] in events;
    }
  }

  lemma NothingAfter(events: seq<RunEvent>, goalId: string, runId: string, covers: nat)
    requires Numbered(events) && covers >= LatestSequence(events, goalId, runId)
    ensures EventsAfter(events, goalId, runId, covers) == []
  {
    hide RunEvents, LatestSequence;
    NoMembers(EventsAfter(events, goalId, runId, covers));
  }

  /**
   * The planner's whole decision for a run, over its journal: reconcile while a receipt of the
   * goal is uncertain, stop on a blocked or ended goal, resume if the run has no event or some
   * checkpoint of the run is at or past its last one, and otherwise as the last event says.
   */
  lemma ClassifyDecides(
    goal: Goal, checkpoints: seq<Checkpoint>, events: seq<RunEvent>, ledger: Ledger, goalId: string, runId: string)
    requires Numbered(events)
    ensures var ours := RunEvents(events, goalId, runId);
            var covered :=
              exists c :: c in checkpoints && ForRun(c, goalId, Some(runId)) && c.journalSequence >= |ours|;
            var uncertain := exists k :: k in ledger && k.goalId == goalId && ledger[k].state.Started?;
            Decided(Classify(goal, checkpoints, events, ledger, goalId, Some(runId)), uncertain,
                    !goal.Terminal() && !goal.state.GoalBlocked?,
                    if ours == [] || covered then None else Some(ours[|ours| - 1].kind))
  {
    hide RunEvents, EventsAfter, LatestSequence, LatestCheckpoint;
    var plan := PlanResume(goal, checkpoints, goalId, Some(runId));
    PostDecides(events, goalId, runId, plan.journalSequence);
    LatestCheckpointIsNewest(checkpoints, goalId, Some(runId));
    var newest := LatestCheckpoint(checkpoints, goalId, Some(runId));
    assert newest.Some? ==> newest.value in checkpoints && ForRun(newest.value, goalId, Some(runId));
  }

  /** Without a run id the goal's newest checkpoint chooses the run; with no checkpoint the journal is not read. */
  lemma ClassifyWithoutRun(
    goal: Goal, checkpoints: seq<Checkpoint>, events: seq<RunEvent>, ledger: Ledger, goalId: string)
    requires Numbered(events)
    ensures var newest := LatestCheckpoint(checkpoints, goalId, None);
            var uncertain := exists k :: k in ledger && k.goalId == goalId && ledger[k].state.Started?;
            Decided(Classify(goal, checkpoints, events, ledger, goalId, None), uncertain,
                    !goal.Terminal() && !goal.state.GoalBlocked?,
                    if newest.None? then None
                    else Uncovered(events, goalId, newest.value.runId, newest.value.journalSequence))
  {
    hide RunEvents, EventsAfter, LatestSequence, LatestCheckpoint, Uncovered;
    var plan := PlanResume(goal, checkpoints, goalId, None);
    if plan.runId.Some? {
      PostDecides(events, goalId, plan.runId.value, plan.journalSequence);
    }
  }

  /** The journal once the receipt of a first call is reserved. */
  function ReservedJournal(events: seq<RunEvent>, call: Call, freshId: string): seq<RunEvent>
    requires HasContext(call)
  {
    var g, run := call.goalId.value, call.runId.value;
    var proposed := Appended(events, g, run, ActionProposed(call.toolId, CallKey(call)));
    var authorized := Appended(proposed, g, run, ActionAuthorized(call.toolId, true));
    Appended(authorized, g, run, SideEffectReserved(freshId))
  }

  /** The newest event of a run is of this kind, and past this number. */
  predicate EndsWith(events: seq<RunEvent>, goalId: string, runId: string, kind: EventKind, after: nat) {
    var ours := RunEvents(events, goalId, runId);
    ours != [] && ours[|ours| - 1].kind == kind && ours[|ours| - 1].sequence > after
  }

  lemma AppendedIsNewest(events: seq<RunEvent>, goalId: string, runId: string, kind: EventKind)
    requires Numbered(events)
    ensures var after := Appended(events, goalId, runId, kind);
            && Numbered(after)
            && EndsWith(after, goalId, runId, kind, LatestSequence(events, goalId, runId))
            && LatestSequence(after, goalId, runId) > LatestSequence(events, goalId, runId)
  {
    hide RunEvents, LatestSequence, Numbered;
    AppendKeepsNumbered(events, goalId, runId, kind);
    LatestIsCount(events, goalId, runId);
    LatestIsCount(Appended(events, goalId, runId, kind), goalId, runId);
  }

  lemma ReservedIsNewest(events: seq<RunEvent>, call: Call, freshId: string)
    requires Numbered(events) && HasContext(call)
    ensures var after := ReservedJournal(events, call, freshId);
            var g, run, latest := call.goalId.value, call.runId.value,
                                  LatestSequence(events, call.goalId.value, call.runId.value);
            && Numbered(after) && EndsWith(after, g, run, SideEffectReserved(freshId), latest)
            && LatestSequence(after, g, run) > latest
  {
    hide Appended, RunEvents, LatestSequence, Numbered;
    var g, run := call.goalId.value, call.runId.value;
    var k1, k2 := ActionProposed(call.toolId, CallKey(call)), ActionAuthorized(call.toolId, true);
    var e1 := Appended(events, g, run, k1);
    AppendedIsNewest(events, g, run, k1);
    AppendedIsNewest(e1, g, run, k2);
    AppendedIsNewest(Appended(e1, g, run, k2), g, run, SideEffectReserved(freshId));
  }

  /** A call that commits journals its reservation and then the commit. */
  lemma CommittedJournal(w: World, call: Call, freshId: string)
    requires Execute(w, call, freshId).1 == Crashed(AfterCommitted)
    ensures HasContext(call)
    ensures Execute(w, call, freshId).0.events
         == Appended(ReservedJournal(w.events, call, freshId), call.goalId.value, call.runId.value,
                     SideEffectCommitted(freshId))
  {
    hide Handler, Metadata, Appended;
  }

  /** The stores of a call that ends after the commit of its receipt and before the journal has that event. */
  function CommittedUnnoted(w: World, call: Call, freshId: string): World
    requires Execute(w, call, freshId).1 == Crashed(AfterCommitted)
  {
    CommittedJournal(w, call, freshId);
    var v := Execute(w, call, freshId).0;
    v.(events := v.events[..|v.events| - 1])
  }

  /** A new receipt that is not uncertain adds no uncertain receipt to a goal. */
  lemma SettledAddsNone(ledger: Ledger, key: Key, receipt: Receipt, goalId: string)
    requires key !in ledger && !receipt.state.Started?
    ensures HasState(ledger[key := receipt], goalId, Started) == HasState(ledger, goalId, Started)
  {
    var after := ledger[key := receipt];
    if HasState(ledger, goalId, Started) {
      var k :| k in ledger && k.goalId == goalId && ledger[k].state == Started;
      assert k in after && after[k] == ledger[k];
    }
  }

  /** The decision over a run that ends with a reservation, or with a commit that no checkpoint covers. */
  lemma ClassifyEnding(
    goal: Goal, checkpoints: seq<Checkpoint>, events: seq<RunEvent>, ledger: Ledger, goalId: string, runId: string,
    kind: EventKind, after: nat)
    requires Numbered(events) && (goal.state.GoalActive? || goal.state.GoalPlanned?)
    requires EndsWith(events, goalId, runId, kind, after)
    requires kind.SideEffectReserved? || kind.SideEffectCommitted?
    requires kind.SideEffectCommitted? ==>
               forall c :: c in checkpoints && ForRun(c, goalId, Some(runId)) ==> c.journalSequence <= after
    ensures Classify(goal, checkpoints, events, ledger, goalId, Some(runId))
         == if HasState(ledger, goalId, Started) then ReconcileSideEffect
            else if kind.SideEffectReserved? then ResumeNextAction
            else VerifyPriorAction
  {
    hide RunEvents, Classify, LatestSequence;
    ClassifyDecides(goal, checkpoints, events, ledger, goalId, runId);
  }

  lemma UnnotedClassified(w: World, call: Call, freshId: string, goal: Goal, checkpoints: seq<Checkpoint>)
    requires Numbered(w.events) && Execute(w, call, freshId).1 == Crashed(AfterCommitted)
    requires HasContext(call) && (goal.state.GoalActive? || goal.state.GoalPlanned?)
    ensures var v, g := CommittedUnnoted(w, call, freshId), call.goalId.value;
            Classify(goal, checkpoints, v.events, v.ledger, g, call.runId)
            == if HasState(w.ledger, g, Started) then ReconcileSideEffect else ResumeNextAction
  {
    hide Execute, RunEvents, LatestSequence, Numbered, HasState, ReservedJournal, Classify, EndsWith, KeyOf;
    var v, g, run := CommittedUnnoted(w, call, freshId), call.goalId.value, call.runId.value;
    CommittedJournal(w, call, freshId);
    var left := CrashLeaves(w, call, freshId);
    SettledAddsNone(w.ledger, KeyOf(call), left, g);
    ReservedIsNewest(w.events, call, freshId);
    ClassifyEnding(goal, checkpoints, v.events, v.ledger, g, run, SideEffectReserved(freshId),
                   LatestSequence(w.events, g, run));
  }

  lemma UnnotedLedger(w: World, call: Call, freshId: string)
    requires Guarded(w) && Execute(w, call, freshId).1 == Crashed(AfterCommitted) && HasContext(call)
    ensures var v := CommittedUnnoted(w, call, freshId);
            && Guarded(v) && KeyOf(call) in v.ledger && v.ledger[KeyOf(call)].state.Committed?
            && v.ledger[KeyOf(call)].request == RequestOf(call)
  {
    hide Execute, KeyOf, RequestOf;
    ExecuteKeepsGuarded(w, call, freshId);
    var left := CrashLeaves(w, call, freshId);
  }

  /**
   * Between the commit of a receipt and its journal event lies a gap. After a crash there the
   * planner verifies nothing: with no other uncertain receipt of the goal it resumes, whatever
   * the checkpoints. Repeating the call is safe all the same: after any history it is answered
   * from the receipt, and no handler is entered.
   */
  lemma UnnotedCommitResumes(
    w: World, call: Call, freshId: string, goal: Goal, checkpoints: seq<Checkpoint>, ops: seq<RecoveryOp>,
    repeated: Call, again: string)
    requires Guarded(w) && Numbered(w.events) && Execute(w, call, freshId).1 == Crashed(AfterCommitted)
    requires HasContext(call) && (goal.state.GoalActive? || goal.state.GoalPlanned?)
    requires ReachesReceipt(repeated) && KeyOf(repeated) == KeyOf(call) && RequestOf(repeated) == RequestOf(call)
    ensures var v, g := CommittedUnnoted(w, call, freshId), call.goalId.value;
            var later := ActAll(v, ops);
            var (after, answer) := Execute(later, repeated, again);
            && Classify(goal, checkpoints, v.events, v.ledger, g, call.runId)
               == (if HasState(w.ledger, g, Started) then ReconcileSideEffect else ResumeNextAction)
            && KeyOf(call) in v.ledger && v.ledger[KeyOf(call)].state.Committed?
            && answer == Skipped(v.ledger[KeyOf(call)].resultRef)
            && after.entries == later.entries && after.tree == later.tree
  {
    hide Execute, KeyOf, RequestOf, CommittedUnnoted, Classify, HasState, Guarded, Numbered;
    UnnotedClassified(w, call, freshId, goal, checkpoints);
    UnnotedLedger(w, call, freshId);
    CommittedAnswersForever(CommittedUnnoted(w, call, freshId), ops, KeyOf(call), repeated, again);
  }

  /**
   * After a crash of a side-effecting call the planner demands reconciliation as long as some
   * receipt of the goal is uncertain, this one's until it is committed; with none left it
   * demands verification of the executed action.
   */
  lemma CrashIsClassified(w: World, call: Call, freshId: string, goal: Goal, checkpoints: seq<Checkpoint>)
    requires Numbered(w.events) && Execute(w, call, freshId).1.Crashed? && HasContext(call)
    requires goal.state.GoalActive? || goal.state.GoalPlanned?
    requires forall c :: c in checkpoints && ForRun(c, call.goalId.value, call.runId)
               ==> c.journalSequence <= LatestSequence(w.events, call.goalId.value, call.runId.value)
    ensures var (v, r) := Execute(w, call, freshId);
            Classify(goal, checkpoints, v.events, v.ledger, call.goalId.value, call.runId)
            == if !r.point.AfterCommitted? || HasState(w.ledger, call.goalId.value, Started) then ReconcileSideEffect
               else VerifyPriorAction
  {
    hide Execute, RunEvents, LatestSequence, Numbered, ReservedJournal, CallKey, Appended, EndsWith, ForRun;
    var (v, r) := Execute(w, call, freshId);
    var g, run := call.goalId.value, call.runId.value;
    var left := CrashLeaves(w, call, freshId);
    if r.point.AfterCommitted? {
      hide Classify, HasState, KeyOf;
      CommittedJournal(w, call, freshId);
      SettledAddsNone(w.ledger, KeyOf(call), left, g);
      var reserved, latest := ReservedJournal(w.events, call, freshId), LatestSequence(w.events, g, run);
      ReservedIsNewest(w.events, call, freshId);
      AppendedIsNewest(reserved, g, run, SideEffectCommitted(freshId));
      ClassifyEnding(goal, checkpoints, v.events, v.ledger, g, run, SideEffectCommitted(freshId),
                     LatestSequence(reserved, g, run));
    } else {
      hide PlanResume;
      assert KeyOf(call) in v.ledger && v.ledger[KeyOf(call)].state == Started && KeyOf(call).goalId == g;
    }
  }
}
