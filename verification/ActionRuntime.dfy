/** What executing, recovering and reconciling side effects does to the durable stores. */
module ActionSpec {
  import opened Outcomes
  import opened Text
  import opened Workspace
  import opened Receipts
  import opened RunJournal

  datatype FaultPoint = AfterReserved | AfterHandler | AfterCommitted

  /** A proposal with its execution context, the gate's verdict and what the tool does. */
  datatype Call = Call(
    goalId: Option<string>, runId: Option<string>, toolId: string, arguments: Arguments, idempotencyKey: Option<string>,
    allowed: bool, argumentsValid: bool, sideEffecting: bool, maxBytes: nat,
    metadataFails: bool, reply: Result<string, string>, crash: Option<FaultPoint>)

  /** `entries` records every entry into a side-effecting handler; it is history, not a store. */
  datatype World = World(ledger: Ledger, events: seq<RunEvent>, tree: Tree, entries: seq<Key>)

  datatype Denial = Gate | MissingContext | MissingKey | Conflict | Uncertain | RetryRequired

  datatype ActionResult =
    | Denied(reason: Denial)
    | Errored
    | Executed(output: Output, resultRef: Option<ResultRef>)
    | Skipped(previous: Option<ResultRef>)
    | Crashed(point: FaultPoint)
    | Raised

  const WRITE_TOOL := "workspace.write_text"

  predicate Present(text: Option<string>) {
    text.Some? && text.value != ""
  }

  predicate HasContext(call: Call) {
    Present(call.goalId) && Present(call.runId)
  }

  /** The journal refuses ids that are present but blank. */
  predicate BadContext(call: Call) {
    HasContext(call) && (Blank(call.goalId.value) || Blank(call.runId.value))
  }

  function Note(w: World, call: Call, kind: EventKind): World {
    if HasContext(call) then w.(events := Appended(w.events, call.goalId.value, call.runId.value, kind)) else w
  }

  function CallKey(call: Call): string {
    if call.idempotencyKey.Some? then Strip(call.idempotencyKey.value) else ""
  }

  function KeyOf(call: Call): Key
    requires HasContext(call)
  {
    Key(call.goalId.value, CallKey(call))
  }

  function RequestOf(call: Call): Request {
    Request(call.toolId, call.arguments)
  }

  /** The metadata builder: the write tool's own, none otherwise. */
  function Metadata(call: Call): Result<Option<WriteTarget>, ()> {
    match call.arguments
    case Write(args) =>
      var m := RecoveryMetadata(args, call.maxBytes);
      if m.Ok? then Ok(Some(m.value)) else Err(())
    case Other(_) => if call.metadataFails then Err(()) else Ok(None)
  }

  /** The tool's handler: an atomic write on the workspace, or a reply that leaves it alone. */
  function Handler(call: Call, t: Tree): (Tree, Result<Output, string>) {
    match call.arguments
    case Write(args) =>
      var (after, r) := WriteText(t, args, call.maxBytes);
      (after, if r.Ok? then Ok(Wrote(r.value)) else Err("Error: write refused"))
    case Other(_) =>
      (t, if call.reply.Ok? then Ok(Said(call.reply.value)) else Err("Error: " + call.reply.error))
  }

  function Execute(w: World, call: Call, freshId: string): (World, ActionResult) {
    if Blank(call.toolId) || BadContext(call) then (w, Raised)
    else
      var proposed := Note(w, call, ActionProposed(call.toolId, CallKey(call)));
      var authorized := Note(proposed, call, ActionAuthorized(call.toolId, call.allowed));
      if !call.allowed then (authorized, Denied(Gate))
      else if !call.argumentsValid then (Note(authorized, call, ActionExecuted(call.toolId, false, None)), Errored)
      else if !call.sideEffecting then RunPlain(authorized, call)
      else if !HasContext(call) then (authorized, Denied(MissingContext))
      else if CallKey(call) == "" then (authorized, Denied(MissingKey))
      else if KeyOf(call) in w.ledger then Existing(authorized, call, w.ledger[KeyOf(call)])
      else Fresh(authorized, call, freshId)
  }

  function RunPlain(w: World, call: Call): (World, ActionResult) {
    var (_, r) := Handler(call, w.tree);
    (Note(w, call, ActionExecuted(call.toolId, r.Ok?, None)), if r.Ok? then Executed(r.value, None) else Errored)
  }

  /** A receipt already exists: answer from it, never from the handler. */
  function Existing(w: World, call: Call, receipt: Receipt): (World, ActionResult) {
    if receipt.request != RequestOf(call) then (w, Denied(Conflict))
    else
      match receipt.state
      case Committed => (Note(w, call, RecoveryDecision("skip", receipt.receiptId)), Skipped(receipt.resultRef))
      case Started => (w, Denied(Uncertain))
      case Failed => (w, Denied(RetryRequired))
  }

  /** Reserve, run the handler, commit; each named crash point keeps what is durable so far. */
  function Fresh(w: World, call: Call, freshId: string): (World, ActionResult)
    requires HasContext(call)
  {
    var metadata := Metadata(call);
    if metadata.Err? then (Note(w, call, ActionExecuted(call.toolId, false, None)), Errored)
    else
      var receipt := NewReceipt(freshId, KeyOf(call), call.runId.value, RequestOf(call), metadata.value);
      var reserved := Note(w.(ledger := w.ledger[receipt.key := receipt]), call, SideEffectReserved(freshId));
      if call.crash == Some(AfterReserved) then (reserved, Crashed(AfterReserved)) else Enter(reserved, call, receipt)
  }

  function Enter(w: World, call: Call, receipt: Receipt): (World, ActionResult) {
    var (tree, r) := Handler(call, w.tree);
    var entered := w.(tree := tree, entries := w.entries + [receipt.key]);
    match r
    case Err(reason) =>
      var failed := FailOutcome(receipt, reason, []);
      var noted :=
        Note(entered.(ledger := Updated(w.ledger, failed)), call, SideEffectFailed(receipt.receiptId, reason));
      (Note(noted, call, ActionExecuted(call.toolId, false, Some(receipt.receiptId))), Errored)
    case Ok(output) =>
      if call.crash == Some(AfterHandler) then (entered, Crashed(AfterHandler))
      else Commit(entered, call, receipt, output)
  }

  function Commit(w: World, call: Call, receipt: Receipt, output: Output): (World, ActionResult) {
    var ref := OutputRef(call.toolId, output);
    var committed := w.(ledger := Updated(w.ledger, CommitOutcome(receipt, ref, [])));
    var noted := Note(committed, call, SideEffectCommitted(receipt.receiptId));
    if call.crash == Some(AfterCommitted) then (noted, Crashed(AfterCommitted))
    else (Note(noted, call, ActionExecuted(call.toolId, true, Some(receipt.receiptId))), Executed(output, Some(ref)))
  }

  // ----- recovery/coordinator.py: authorized retries and resolutions -----

  /** The decision is journaled last: a blank run or goal id raises with the receipt already written. */
  function Decided(w: World, r: Result<Receipt, ReceiptError>, key: Key, runId: string, decision: string)
    : (World, Result<Receipt, ReceiptError>)
  {
    if r.Err? then (w, r)
    else
      var written := w.(ledger := Updated(w.ledger, r));
      if Blank(key.goalId) || Blank(runId) then (written, Err(JournalRefused))
      else
        var kind := RecoveryDecision(decision, r.value.receiptId);
        (written.(events := Appended(w.events, key.goalId, runId, kind)), r)
  }

  function AuthorizeRetry(w: World, key: Key, runId: string, reason: string): (World, Result<Receipt, ReceiptError>) {
    if key !in w.ledger then (w, Err(UnknownReceipt))
    else Decided(w, RetryOutcome(w.ledger[key], runId, reason), key, runId, "retry")
  }

  function ResolveCommitted(w: World, key: Key, runId: string, ref: ResultRef, evidence: seq<Evidence>)
    : (World, Result<Receipt, ReceiptError>)
  {
    if key !in w.ledger then (w, Err(UnknownReceipt))
    else if !w.ledger[key].state.Started? then (w, Err(WrongState))
    else Decided(w, CommitOutcome(w.ledger[key], ref, evidence), key, runId, "resolve_committed")
  }

  function ResolveFailed(w: World, key: Key, runId: string, reason: string, evidence: seq<Evidence>)
    : (World, Result<Receipt, ReceiptError>)
  {
    if key !in w.ledger then (w, Err(UnknownReceipt))
    else if !w.ledger[key].state.Started? then (w, Err(WrongState))
    else Decided(w, FailOutcome(w.ledger[key], reason, evidence), key, runId, "resolve_failed")
  }

  // ----- recovery/workspace_reconcile.py -----

  datatype Inspection = UnsupportedTool | MissingMetadata | Missing | Mismatch | MatchesExpected

  function Inspect(t: Tree, receipt: Receipt): Inspection {
    if receipt.request.toolId != WRITE_TOOL then UnsupportedTool
    else if receipt.target.None? then MissingMetadata
    else
      var target := receipt.target.value;
      if target.path !in t.files then Missing
      else if Sha256(t.files[target.path]) == target.expected then MatchesExpected
      else Mismatch
  }

  function ResolveIfMatches(w: World, key: Key, runId: string): (World, Result<Inspection, ReceiptError>) {
    if key !in w.ledger then (w, Err(UnknownReceipt))
    else if !w.ledger[key].state.Started? then (w, Err(WrongState))
    else
      var inspection := Inspect(w.tree, w.ledger[key]);
      if !inspection.MatchesExpected? then (w, Ok(inspection))
      else
        var target := w.ledger[key].target.value;
        var ref, seen := FileRef(target.path, target.expected), [SeenFile(target.path, target.expected)];
        var (after, r) := ResolveCommitted(w, key, runId, ref, seen);
        (after, if r.Ok? then Ok(inspection) else Err(r.error))
  }
}

/** The runtime, the recovery coordinator and the reconciler over the shared ports. */
module ActionRuntime {
  import opened Outcomes
  import opened Text
  import opened Workspace
  import opened Receipts
  import opened RunJournal
  import Spec = ActionSpec

  class FileStore {
    var tree: Tree

    constructor (tree: Tree)
      ensures this.tree == tree
    {
      this.tree := tree;
    }

    method Write(args: WriteArgs, maxBytes: nat) returns (r: Result<WriteOutput, WriteError>)
      modifies this
      ensures (tree, r) == WriteText(old(tree), args, maxBytes)
    {
      if !args.raw.Under? {
        return Err(BadPath);
      }
      var target := args.raw.path;
      if IsDir(tree, target) {
        return Err(IsDirectory);
      }
      if |args.content| > maxBytes {
        return Err(TooLarge);
      }
      var parent := Parent(target);
      if !Exists(tree, parent) {
        if !args.createParents {
          return Err(NoParent);
        }
        var made := MakeDirs(tree, parent);
        if made.Err? {
          return Err(made.error);
        }
        tree := made.value;
      }
      var previous := Previous(tree, target);
      if args.mustNotExist && target in tree.files {
        return Err(AlreadyExists);
      }
      if args.expected.Malformed? {
        return Err(PreconditionFailed);
      }
      if args.expected.Content? && previous != Some(args.expected.digest) {
        return Err(PreconditionFailed);
      }
      if !IsDir(tree, parent) {
        return Err(NotADirectory);
      }
      var sha := Sha256(args.content);
      tree := tree.(files := tree.files[target := args.content]);
      return Ok(WriteOutput(target, |args.content|, sha, previous, previous != Some(sha)));
    }
  }

  class Runtime {
    const journal: JournalPort
    const sideEffects: ReceiptPort
    const files: FileStore
    ghost var entries: seq<Key>

    constructor (journal: JournalPort, sideEffects: ReceiptPort, files: FileStore)
      ensures this.journal == journal && this.sideEffects == sideEffects && this.files == files && entries == []
    {
      this.journal, this.sideEffects, this.files := journal, sideEffects, files;
      entries := [];
    }

    ghost predicate Valid()
      reads sideEffects
    {
      sideEffects.Valid()
    }

    ghost function Now(): Spec.World
      requires Valid()
      reads this, journal, sideEffects, files
    {
      Spec.World(sideEffects.View(), journal.events, files.tree, entries)
    }

    method Note(call: Spec.Call, kind: EventKind)
      requires Valid() && !Spec.BadContext(call)
      modifies journal
      ensures Valid() && Now() == Spec.Note(old(Now()), call, kind)
    {
      if Spec.HasContext(call) {
        var ok := journal.Append(call.goalId.value, call.runId.value, kind);
      }
    }

    method Handle(call: Spec.Call) returns (r: Result<Output, string>)
      modifies files
      ensures (files.tree, r) == Spec.Handler(call, old(files.tree))
    {
      match call.arguments
      case Write(args) =>
        var written := files.Write(args, call.maxBytes);
        return if written.Ok? then Ok(Wrote(written.value)) else Err("Error: write refused");
      case Other(_) =>
        return if call.reply.Ok? then Ok(Said(call.reply.value)) else Err("Error: " + call.reply.error);
    }

    /** One proposal. A tool that declares no side effect leaves the workspace alone. */
    method Execute(call: Spec.Call, freshId: string) returns (r: Spec.ActionResult)
      requires Valid() && freshId !in sideEffects.items
      requires call.arguments.Write? ==> call.sideEffecting
      modifies this, journal, sideEffects, files
      ensures Valid() && (Now(), r) == Spec.Execute(old(Now()), call, freshId)
    {
      if Blank(call.toolId) || Spec.BadContext(call) {
        return Spec.Raised;
      }
      Note(call, ActionProposed(call.toolId, Spec.CallKey(call)));
      Note(call, ActionAuthorized(call.toolId, call.allowed));
      if !call.allowed {
        return Spec.Denied(Spec.Gate);
      }
      if !call.argumentsValid {
        Note(call, ActionExecuted(call.toolId, false, None));
        return Spec.Errored;
      }
      if !call.sideEffecting {
        var plain := Handle(call);
        Note(call, ActionExecuted(call.toolId, plain.Ok?, None));
        return if plain.Ok? then Spec.Executed(plain.value, None) else Spec.Errored;
      }
      if !Spec.HasContext(call) {
        return Spec.Denied(Spec.MissingContext);
      }
      if Spec.CallKey(call) == "" {
        return Spec.Denied(Spec.MissingKey);
      }
      var existing := sideEffects.GetReceipt(Spec.KeyOf(call));
      if existing.Some? {
        r := AnswerFrom(call, existing.value);
      } else {
        r := RunFresh(call, freshId);
      }
    }

    method AnswerFrom(call: Spec.Call, existing: Receipt) returns (r: Spec.ActionResult)
      requires Valid() && Spec.HasContext(call) && !Spec.BadContext(call)
      modifies journal
      ensures Valid() && (Now(), r) == Spec.Existing(old(Now()), call, existing)
    {
      if existing.request != Spec.RequestOf(call) {
        return Spec.Denied(Spec.Conflict);
      }
      if existing.state.Committed? {
        Note(call, RecoveryDecision("skip", existing.receiptId));
        return Spec.Skipped(existing.resultRef);
      }
      if existing.state.Started? {
        return Spec.Denied(Spec.Uncertain);
      }
      return Spec.Denied(Spec.RetryRequired);
    }

    method RunFresh(call: Spec.Call, freshId: string) returns (r: Spec.ActionResult)
      requires Valid() && Spec.HasContext(call) && !Spec.BadContext(call)
      requires freshId !in sideEffects.items && Spec.KeyOf(call) !in sideEffects.View()
      modifies this, journal, sideEffects, files
      ensures Valid() && (Now(), r) == Spec.Fresh(old(Now()), call, freshId)
    {
      var metadata := Spec.Metadata(call);
      if metadata.Err? {
        Note(call, ActionExecuted(call.toolId, false, None));
        return Spec.Errored;
      }
      var reserved :=
        sideEffects.Reserve(freshId, Spec.KeyOf(call), call.runId.value, Spec.RequestOf(call), metadata.value);
      assert reserved.Ok?;
      Note(call, SideEffectReserved(freshId));
      if call.crash == Some(Spec.AfterReserved) {
        return Spec.Crashed(Spec.AfterReserved);
      }
      r := EnterHandler(call, reserved.value);
    }

    method EnterHandler(call: Spec.Call, receipt: Receipt) returns (r: Spec.ActionResult)
      requires Valid() && Spec.HasContext(call) && !Spec.BadContext(call)
      requires receipt.receiptId in sideEffects.items && sideEffects.items[receipt.receiptId] == receipt
      modifies this, journal, sideEffects, files
      ensures Valid() && (Now(), r) == Spec.Enter(old(Now()), call, receipt)
    {
      var output := Handle(call);
      entries := entries + [receipt.key];
      if output.Err? {
        var failed := sideEffects.FailReceipt(receipt.receiptId, output.error, []);
        Note(call, SideEffectFailed(receipt.receiptId, output.error));
        Note(call, ActionExecuted(call.toolId, false, Some(receipt.receiptId)));
        return Spec.Errored;
      }
      if call.crash == Some(Spec.AfterHandler) {
        return Spec.Crashed(Spec.AfterHandler);
      }
      var ref := OutputRef(call.toolId, output.value);
      var committed := sideEffects.CommitReceipt(receipt.receiptId, ref, []);
      Note(call, SideEffectCommitted(receipt.receiptId));
      if call.crash == Some(Spec.AfterCommitted) {
        return Spec.Crashed(Spec.AfterCommitted);
      }
      Note(call, ActionExecuted(call.toolId, true, Some(receipt.receiptId)));
      return Spec.Executed(output.value, Some(ref));
    }

    // ----- recovery -----

    /** Journals a decision on a written receipt. */
    method Decide(resolved: Receipt, key: Key, runId: string, decision: string)
      returns (r: Result<Receipt, ReceiptError>)
      requires Valid()
      modifies journal
      ensures Valid() && journal.events ==
                         if Blank(key.goalId) || Blank(runId) then old(journal.events)
                         else Appended(old(journal.events), key.goalId, runId,
                                       RecoveryDecision(decision, resolved.receiptId))
      ensures r == if Blank(key.goalId) || Blank(runId) then Err(JournalRefused) else Ok(resolved)
    {
      var ok := journal.Append(key.goalId, runId, RecoveryDecision(decision, resolved.receiptId));
      return if ok then Ok(resolved) else Err(JournalRefused);
    }

    method AuthorizeRetry(key: Key, runId: string, reason: string) returns (r: Result<Receipt, ReceiptError>)
      requires Valid()
      modifies journal, sideEffects
      ensures Valid() && (Now(), r) == Spec.AuthorizeRetry(old(Now()), key, runId, reason)
    {
      var receipt := sideEffects.GetReceipt(key);
      if receipt.None? {
        return Err(UnknownReceipt);
      }
      r := sideEffects.RetryReceipt(receipt.value.receiptId, runId, reason);
      if r.Ok? {
        r := Decide(r.value, key, runId, "retry");
      }
    }

    method ResolveUncertainAsCommitted(key: Key, runId: string, ref: ResultRef, evidence: seq<Evidence>)
      returns (r: Result<Receipt, ReceiptError>)
      requires Valid()
      modifies journal, sideEffects
      ensures Valid() && (Now(), r) == Spec.ResolveCommitted(old(Now()), key, runId, ref, evidence)
    {
      var receipt := sideEffects.GetReceipt(key);
      if receipt.None? {
        return Err(UnknownReceipt);
      }
      if !receipt.value.state.Started? {
        return Err(WrongState);
      }
      r := sideEffects.CommitReceipt(receipt.value.receiptId, ref, evidence);
      if r.Ok? {
        r := Decide(r.value, key, runId, "resolve_committed");
      }
    }

    method ResolveUncertainAsFailed(key: Key, runId: string, reason: string, evidence: seq<Evidence>)
      returns (r: Result<Receipt, ReceiptError>)
      requires Valid()
      modifies journal, sideEffects
      ensures Valid() && (Now(), r) == Spec.ResolveFailed(old(Now()), key, runId, reason, evidence)
    {
      var receipt := sideEffects.GetReceipt(key);
      if receipt.None? {
        return Err(UnknownReceipt);
      }
      if !receipt.value.state.Started? {
        return Err(WrongState);
      }
      r := sideEffects.FailReceipt(receipt.value.receiptId, reason, evidence);
      if r.Ok? {
        r := Decide(r.value, key, runId, "resolve_failed");
      }
    }

    method ResolveIfMatches(key: Key, runId: string) returns (r: Result<Spec.Inspection, ReceiptError>)
      requires Valid()
      modifies journal, sideEffects
      ensures Valid() && (Now(), r) == Spec.ResolveIfMatches(old(Now()), key, runId)
    {
      var receipt := sideEffects.GetReceipt(key);
      if receipt.None? {
        return Err(UnknownReceipt);
      }
      if !receipt.value.state.Started? {
        return Err(WrongState);
      }
      var inspection := Spec.Inspect(files.tree, receipt.value);
      if !inspection.MatchesExpected? {
        return Ok(inspection);
      }
      var target := receipt.value.target.value;
      var resolved := ResolveUncertainAsCommitted(key, runId, FileRef(target.path, target.expected),
                                                  [SeenFile(target.path, target.expected)]);
      return if resolved.Ok? then Ok(inspection) else Err(resolved.error);
    }
  }
}
