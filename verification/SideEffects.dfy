/** A workspace as a file tree, and the atomic text write on it (execution/builtin.py). */
module Workspace {
  import opened Outcomes

  type Path = seq<string>
  type Bytes = seq<bv8>

  /** SHA-256 taken as injective: a digest is its content. */
  datatype Digest = Sha256(content: Bytes)

  datatype Tree = Tree(files: map<Path, Bytes>, dirs: set<Path>)

  /** The `path` argument after resolution against the workspace root. */
  datatype RawPath = BlankPath | Escaping | Under(path: Path)

  /** The `expected_sha256` argument: absent, malformed, or a digest. */
  datatype Expected = Unchecked | Malformed | Content(digest: Digest)

  datatype WriteArgs = WriteArgs(
    raw: RawPath, content: Bytes, createParents: bool, mustNotExist: bool, expected: Expected)

  /** What the recovery metadata of a reserved write records. */
  datatype WriteTarget = WriteTarget(path: Path, expected: Digest)

  datatype WriteError = BadPath | TooLarge | IsDirectory | NoParent | AlreadyExists | PreconditionFailed | NotADirectory

  datatype WriteOutput = WriteOutput(path: Path, bytes: nat, sha256: Digest, previous: Option<Digest>, changed: bool)

  function RecoveryMetadata(args: WriteArgs, maxBytes: nat): Result<WriteTarget, WriteError> {
    if !args.raw.Under? then Err(BadPath)
    else if |args.content| > maxBytes then Err(TooLarge)
    else Ok(WriteTarget(args.raw.path, Sha256(args.content)))
  }

  function Parent(p: Path): Path {
    if p == [] then [] else p[..|p| - 1]
  }

  predicate Exists(t: Tree, p: Path) {
    p == [] || p in t.files || p in t.dirs
  }

  predicate IsDir(t: Tree, p: Path) {
    p == [] || p in t.dirs
  }

  /** `mkdir(parents=True)`: the missing directories above a path, unless a file is in the way. */
  function Ancestors(p: Path): (r: set<Path>) {
    set i | 0 <= i <= |p| :: p[..i]
  }

  function MakeDirs(t: Tree, p: Path): Result<Tree, WriteError> {
    if exists q :: q in Ancestors(p) && q in t.files then Err(NotADirectory)
    else Ok(t.(dirs := t.dirs + Ancestors(p)))
  }

  function Previous(t: Tree, p: Path): Option<Digest> {
    if p in t.files then Some(Sha256(t.files[p])) else None
  }

  /** The tree after a call of `write_text`, and what it returns or raises. */
  function WriteText(t: Tree, args: WriteArgs, maxBytes: nat): (Tree, Result<WriteOutput, WriteError>) {
    if !args.raw.Under? then (t, Err(BadPath))
    else
      var p := args.raw.path;
      if IsDir(t, p) then (t, Err(IsDirectory))
      else if |args.content| > maxBytes then (t, Err(TooLarge))
      else if !Exists(t, Parent(p)) && !args.createParents then (t, Err(NoParent))
      else
        var made := if Exists(t, Parent(p)) then Ok(t) else MakeDirs(t, Parent(p));
        if made.Err? then (t, Err(made.error)) else Replace(made.value, p, args)
  }

  function Replace(t: Tree, p: Path, args: WriteArgs): (Tree, Result<WriteOutput, WriteError>) {
    var previous := Previous(t, p);
    if args.mustNotExist && p in t.files then (t, Err(AlreadyExists))
    else if args.expected.Malformed? then (t, Err(PreconditionFailed))
    else if args.expected.Content? && previous != Some(args.expected.digest) then (t, Err(PreconditionFailed))
    else if !IsDir(t, Parent(p)) then (t, Err(NotADirectory))
    else
      var sha := Sha256(args.content);
      (t.(files := t.files[p := args.content]),
       Ok(WriteOutput(p, |args.content|, sha, previous, previous != Some(sha))))
  }

  /**
   * A write succeeds with the requested content at the requested path and nothing else touched, or
   * writes no file at all.
   */
  lemma WriteIsAllOrNothing(t: Tree, args: WriteArgs, maxBytes: nat)
    ensures var (after, r) := WriteText(t, args, maxBytes);
            && (r.Ok? ==> args.raw.Under? && after.files == t.files[args.raw.path := args.content]
                          && RecoveryMetadata(args, maxBytes) == Ok(WriteTarget(args.raw.path, r.value.sha256)))
            && (r.Err? ==> after.files == t.files)
            && t.dirs <= after.dirs
  {
  }
}

/** Side-effect receipts: one per goal and idempotency key (recovery/in_memory.py). */
module Receipts {
  import opened Outcomes
  import opened Text
  import opened Workspace

  datatype Key = Key(goalId: string, idempotencyKey: string)

  /** A request digest taken as injective: the tool and its arguments. */
  datatype Request = Request(toolId: string, arguments: Arguments)

  datatype Arguments = Write(args: WriteArgs) | Other(text: string)

  /** A result reference: the digest of an output, a reconciled file, or a caller's text. */
  datatype ResultRef =
    | OutputRef(toolId: string, output: Output) | FileRef(path: Path, sha256: Digest) | TextRef(text: string)

  datatype Output = Wrote(write: WriteOutput) | Said(text: string)

  /** An evidence reference: a file seen with some content, or a caller's text. */
  datatype Evidence = SeenFile(path: Path, sha256: Digest) | NamedEvidence(text: string)

  datatype ReceiptState = Started | Committed | Failed

  datatype Receipt = Receipt(
    receiptId: string, key: Key, runId: string, request: Request, state: ReceiptState,
    resultRef: Option<ResultRef>, evidence: seq<Evidence>, failureReason: Option<string>, attemptCount: nat,
    lastRetryReason: Option<string>, target: Option<WriteTarget>)

  datatype ReceiptError = UnknownReceipt | KeyConflict | WrongState | BlankText | JournalRefused

  predicate BlankRef(ref: ResultRef) {
    ref.TextRef? && Blank(ref.text)
  }

  function CleanRef(ref: ResultRef): ResultRef {
    if ref.TextRef? then TextRef(Strip(ref.text)) else ref
  }

  function CommitOutcome(r: Receipt, ref: ResultRef, evidence: seq<Evidence>): Result<Receipt, ReceiptError> {
    if r.state.Committed? then Ok(r)
    else if r.state.Failed? then Err(WrongState)
    else if BlankRef(ref) then Err(BlankText)
    else Ok(r.(state := Committed, resultRef := Some(CleanRef(ref)), evidence := evidence))
  }

  function FailOutcome(r: Receipt, reason: string, evidence: seq<Evidence>): Result<Receipt, ReceiptError> {
    if r.state.Committed? then Err(WrongState)
    else if Blank(reason) then Err(BlankText)
    else if r.state.Failed? then Ok(r)
    else Ok(r.(state := Failed, failureReason := Some(Strip(reason)), evidence := evidence))
  }

  function RetryOutcome(r: Receipt, runId: string, reason: string): Result<Receipt, ReceiptError> {
    if !r.state.Failed? then Err(WrongState)
    else if Blank(runId) || Blank(reason) then Err(BlankText)
    else Ok(r.(runId := Strip(runId), state := Started, resultRef := None, evidence := [], failureReason := None,
               attemptCount := r.attemptCount + 1, lastRetryReason := Some(Strip(reason))))
  }

  type Ledger = map<Key, Receipt>

  function Updated(ledger: Ledger, r: Result<Receipt, ReceiptError>): Ledger {
    if r.Ok? then ledger[r.value.key := r.value] else ledger
  }

  function NewReceipt(freshId: string, key: Key, runId: string, request: Request, target: Option<WriteTarget>): Receipt
  {
    Receipt(freshId, key, runId, request, Started, None, [], None, 1, None, target)
  }

  class ReceiptPort {
    var items: map<string, Receipt>
    var byKey: map<Key, string>

    ghost predicate Valid()
      reads this
    {
      && (forall k ::
           k in byKey ==> byKey[k] in items && items[byKey[k]].key == k && items[byKey[k]].receiptId == byKey[k])
      && (forall id :: id in items ==> items[id].key in byKey && byKey[items[id].key] == id)
    }

    ghost function View(): Ledger
      requires Valid()
      reads this
    {
      map k | k in byKey :: items[byKey[k]]
    }

    constructor ()
      ensures Valid() && View() == map[]
    {
      items, byKey := map[], map[];
    }

    function GetReceipt(key: Key): (r: Option<Receipt>)
      requires Valid()
      reads this
      ensures r == if key in View() then Some(View()[key]) else None
    {
      if key in byKey then Some(items[byKey[key]]) else None
    }

    /** `receipt_id` comes from uuid4, so it is new. */
    method Reserve(freshId: string, key: Key, runId: string, request: Request, target: Option<WriteTarget>)
      returns (r: Result<Receipt, ReceiptError>)
      requires Valid() && freshId !in items
      modifies this
      ensures Valid()
      ensures r == if key !in old(View()) then Ok(NewReceipt(freshId, key, runId, request, target))
                   else if old(View())[key].request != request then Err(KeyConflict)
                   else Ok(old(View())[key])
      ensures View() == Updated(old(View()), r)
      ensures r.Ok? ==> r.value.receiptId in items && items[r.value.receiptId] == r.value
      ensures items.Keys == old(items.Keys) + (if key in old(View()) then {} else {freshId})
    {
      if key in byKey {
        var existing := items[byKey[key]];
        if existing.request != request {
          return Err(KeyConflict);
        }
        assert View()[key := existing] == View();
        return Ok(existing);
      }
      var receipt := NewReceipt(freshId, key, runId, request, target);
      items := items[freshId := receipt];
      byKey := byKey[key := freshId];
      return Ok(receipt);
    }

    method Store(receiptId: string, updated: Receipt)
      requires Valid() && receiptId in items && updated.key == items[receiptId].key && updated.receiptId == receiptId
      modifies this
      ensures Valid() && View() == old(View())[updated.key := updated]
      ensures items.Keys == old(items.Keys)
    {
      items := items[receiptId := updated];
    }

    method CommitReceipt(receiptId: string, ref: ResultRef, evidence: seq<Evidence>)
      returns (r: Result<Receipt, ReceiptError>)
      requires Valid()
      modifies this
      ensures Valid()
      ensures r == if receiptId !in old(items) then Err(UnknownReceipt)
                else CommitOutcome(old(items[receiptId]), ref, evidence)
      ensures View() == Updated(old(View()), r) && items.Keys == old(items.Keys)
    {
      if receiptId !in items {
        return Err(UnknownReceipt);
      }
      var current := items[receiptId];
      if current.state.Committed? {
        assert View()[current.key := current] == View();
        return Ok(current);
      }
      if current.state.Failed? {
        return Err(WrongState);
      }
      if BlankRef(ref) {
        return Err(BlankText);
      }
      var updated := current.(state := Committed, resultRef := Some(CleanRef(ref)), evidence := evidence);
      Store(receiptId, updated);
      return Ok(updated);
    }

    method FailReceipt(receiptId: string, reason: string, evidence: seq<Evidence>)
      returns (r: Result<Receipt, ReceiptError>)
      requires Valid()
      modifies this
      ensures Valid()
      ensures r == if receiptId !in old(items) then Err(UnknownReceipt)
                else FailOutcome(old(items[receiptId]), reason, evidence)
      ensures View() == Updated(old(View()), r) && items.Keys == old(items.Keys)
    {
      if receiptId !in items {
        return Err(UnknownReceipt);
      }
      var current := items[receiptId];
      if current.state.Committed? {
        return Err(WrongState);
      }
      if Blank(reason) {
        return Err(BlankText);
      }
      if current.state.Failed? {
        assert View()[current.key := current] == View();
        return Ok(current);
      }
      var updated := current.(state := Failed, failureReason := Some(Strip(reason)), evidence := evidence);
      Store(receiptId, updated);
      return Ok(updated);
    }

    method RetryReceipt(receiptId: string, runId: string, reason: string) returns (r: Result<Receipt, ReceiptError>)
      requires Valid()
      modifies this
      ensures Valid()
      ensures r == if receiptId !in old(items) then Err(UnknownReceipt)
                else RetryOutcome(old(items[receiptId]), runId, reason)
      ensures View() == Updated(old(View()), r) && items.Keys == old(items.Keys)
    {
      if receiptId !in items {
        return Err(UnknownReceipt);
      }
      var current := items[receiptId];
      if !current.state.Failed? {
        return Err(WrongState);
      }
      if Blank(runId) || Blank(reason) {
        return Err(BlankText);
      }
      var updated := current.(runId := Strip(runId), state := Started, resultRef := None, evidence := [],
                              failureReason := None, attemptCount := current.attemptCount + 1,
                              lastRetryReason := Some(Strip(reason)));
      Store(receiptId, updated);
      return Ok(updated);
    }
  }
}
