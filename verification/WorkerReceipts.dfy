/** The stream of worker calls, the receipt built for each completed call, and the check of persisted receipts. */
module WorkerReceipts {
  import opened Common

  // ----- Relative paths -----

  /** The pieces between slashes. */
  function Split(s: string): (pieces: seq<string>)
    ensures pieces != []
  {
    if s == [] then [""]
    else
      var rest := Split(s[1..]);
      if s[0] == '/' then [""] + rest else [[s[0]] + rest[0]] + rest[1..]
  }

  predicate Piece(piece: string) {
    piece != "" && piece != "." && '/' !in piece
  }

  function Pieces(pieces: seq<string>): seq<string> {
    if pieces == [] then []
    else (if pieces[0] == "" || pieces[0] == "." then [] else [pieces[0]]) + Pieces(pieces[1..])
  }

  /** The parts of a pure path: empty pieces and dots are dropped. */
  function Parts(path: string): seq<string> {
    Pieces(Split(path))
  }

  function Joined(parts: seq<string>): string {
    if parts == [] then "" else if |parts| == 1 then parts[0] else parts[0] + "/" + Joined(parts[1..])
  }

  function AsPosix(parts: seq<string>): string {
    if parts == [] then "." else Joined(parts)
  }

  predicate Absolute(path: string) {
    path != "" && path[0] == '/'
  }

  lemma {:induction false} SplitHasNoSlash(s: string)
    ensures forall i | 0 <= i < |Split(s)| :: '/' !in Split(s)[i]
  {
    if s != [] { SplitHasNoSlash(s[1..]); }
  }

  lemma {:induction false} PiecesAreParts(pieces: seq<string>)
    requires forall i | 0 <= i < |pieces| :: '/' !in pieces[i]
    ensures forall i | 0 <= i < |Pieces(pieces)| :: Piece(Pieces(pieces)[i])
  {
    if pieces != [] { PiecesAreParts(pieces[1..]); }
  }

  lemma {:induction false} SplitOne(word: string)
    requires '/' !in word
    ensures Split(word) == [word]
  {
    if word != [] {
      SplitOne(word[1..]);
      assert [word[0]] + word[1..] == word;
    }
  }

  lemma {:induction false} SplitFirst(word: string, rest: string)
    requires '/' !in word
    ensures Split(word + "/" + rest) == [word] + Split(rest)
  {
    var all := word + "/" + rest;
    if word == [] {
      assert all[1..] == rest;
    } else {
      assert all[1..] == word[1..] + "/" + rest;
      SplitFirst(word[1..], rest);
      assert [word[0]] + word[1..] == word;
    }
  }

  lemma {:induction false} SplitJoined(parts: seq<string>)
    requires parts != [] && forall i | 0 <= i < |parts| :: Piece(parts[i])
    ensures Split(Joined(parts)) == parts
    decreases |parts|
  {
    if |parts| == 1 {
      SplitOne(parts[0]);
    } else {
      SplitJoined(parts[1..]);
      SplitFirst(parts[0], Joined(parts[1..]));
      assert [parts[0]] + parts[1..] == parts;
    }
  }

  lemma {:induction false} PiecesOfParts(parts: seq<string>)
    requires forall i | 0 <= i < |parts| :: Piece(parts[i])
    ensures Pieces(parts) == parts
  {
    if parts != [] {
      PiecesOfParts(parts[1..]);
      assert [parts[0]] + parts[1..] == parts;
    }
  }

  /** Writing a path out and reading it again gives the same parts. */
  lemma PartsRoundTrip(path: string)
    ensures Parts(AsPosix(Parts(path))) == Parts(path)
    ensures !Absolute(AsPosix(Parts(path))) && AsPosix(Parts(path)) != ""
  {
    var parts := Parts(path);
    SplitHasNoSlash(path);
    PiecesAreParts(Split(path));
    if parts == [] {
      SplitOne(".");
      assert Pieces(["."]) == [];
    } else {
      SplitJoined(parts);
      PiecesOfParts(parts);
      assert Piece(parts[0]) && parts[0][0] != '/';
    }
  }

  // ----- The sealed plan -----

  datatype Tool = WorkerRead | WorkerSearch | WorkerWrite | WorkerExecute | WorkerInventory
  datatype Kind = Read | Search | Patch | Test | Build | Experiment | OtherKind

  datatype Operation = Operation(id: string, kind: Kind, paths: seq<string>)

  datatype Plan = Plan(runId: string, planHash: string, snapshotHash: string, operations: seq<Operation>)

  function ToolFor(kind: Kind): Option<Tool> {
    match kind
    case Read => Some(WorkerRead)
    case Search => Some(WorkerSearch)
    case Patch => Some(WorkerWrite)
    case OtherKind => None
    case _ => Some(WorkerExecute)
  }

  /** The first operation with this ID. */
  function Find(operations: seq<Operation>, id: string): (r: Option<Operation>)
    ensures r.Some? ==> r.value in operations && r.value.id == id
    ensures r.None? ==> forall i | 0 <= i < |operations| :: operations[i].id != id
  {
    if operations == [] then None
    else if operations[0].id == id then Some(operations[0])
    else Find(operations[1..], id)
  }

  function PlanIds(plan: Plan): set<string> {
    set i | 0 <= i < |plan.operations| :: plan.operations[i].id
  }

  /** The operation a call may be for: it is in the plan, and its kind belongs to the tool. */
  function PlannedFor(plan: Plan, tool: Tool, id: string): Option<Operation> {
    var operation := Find(plan.operations, id);
    if operation.Some? && ToolFor(operation.value.kind) == Some(tool) then operation else None
  }

  predicate Under(parts: seq<string>, root: string) {
    !Absolute(root) && Parts(root) <= parts
  }

  /** The path in its plain form, if it is relative, never goes up, and lies under a path of the operation. */
  function AuthorizedPath(operation: Operation, path: string): Option<string> {
    if path == "" || Absolute(path) || ".." in Parts(path) then None
    else if !exists i | 0 <= i < |operation.paths| :: Under(Parts(path), operation.paths[i]) then None
    else Some(AsPosix(Parts(path)))
  }

  /** An authorized path is authorized again in its plain form, which it keeps. */
  lemma AuthorizedIsStable(operation: Operation, path: string)
    requires AuthorizedPath(operation, path).Some?
    ensures AuthorizedPath(operation, AuthorizedPath(operation, path).value) == AuthorizedPath(operation, path)
  {
    PartsRoundTrip(path);
  }

  // ----- Hashes -----

  /** A hash by what was hashed, or by its text when it was handed over as text. */
  datatype Hash = OfArguments(arguments: Arguments) | OfResult(result: Structured) | OfText(text: string) | OfFiles(files: seq<File>) | Written(hex: string)

  predicate RawSha(s: string) {
    |s| == 64 && forall i | 0 <= i < |s| :: '0' <= s[i] <= '9' || 'a' <= s[i] <= 'f'
  }

  /** `sha256:` and 64 lower-case hexadecimal digits; a hash the program computes has this form. */
  predicate IsSha(hash: Hash) {
    hash.Written? ==> "sha256:" <= hash.hex && RawSha(hash.hex[7..])
  }

  // ----- A completed call -----

  datatype Arguments =
    | ReadArguments(operationId: string, path: string, start: int, end: int)
    | SearchArguments(operationId: string, query: string)
    | WriteArguments(operationId: string, path: string, content: string)
    | ExecuteArguments(operationId: string)
    | InventoryArguments
    | MalformedArguments

  datatype Match = Match(path: string, line: int)
  datatype File = File(path: string, sha: string, size: int)

  datatype Structured =
    | ReadResult(operationId: string, path: string, start: int, end: int, content: string, sha: string)
    | SearchResult(operationId: string, matches: seq<Match>, truncated: bool)
    | WriteResult(operationId: string, path: string, sha: string)
    | ExecuteResult(operationId: string, exitCode: int, success: bool, commandHash: string, stdout: string, stderr: string)
    | InventoryResult(runId: string, planHash: string, snapshotHash: string, files: seq<File>, completed: seq<string>, resultHash: Option<Hash>)
    | MalformedResult

  /** One item of the call stream, as far as it was readable: an unknown tool is no tool. */
  datatype Item = Item(
    server: string, tool: Option<Tool>, id: Option<string>, arguments: Arguments, completed: bool, errorFree: bool,
    result: Structured)

  datatype Detail =
    | ReadDetail(path: string, requestedStart: int, requestedEnd: int, returnedStart: int, returnedEnd: int, source: Hash, content: Hash)
    | SearchDetail(matchCount: int, truncated: bool)
    | WriteDetail(path: string, output: Hash)
    | ExecuteDetail(exitCode: int, success: bool, command: Hash, stdout: Hash, stderr: Hash)
    | InventoryDetail(fileCount: int, manifest: Hash, inventory: Hash)

  datatype Body = Body(
    sequence: int, server: string, tool: Tool, status: string, operationId: Option<string>, arguments: Hash, result: Hash,
    detail: Detail)

  /** A receipt with the body that its own hash was computed from. */
  datatype Receipt = Receipt(body: Body, hashed: Body)

  const SERVER: string := "ur_worker"

  function ReadDetailOf(operation: Operation, a: Arguments, r: Structured): Option<Detail>
    requires a.ReadArguments? && r.ReadResult?
  {
    var path := AuthorizedPath(operation, a.path);
    if path.None? || r.path != path.value then None
    else if a.start < 1 || a.end < a.start || r.start < 1 || r.end < r.start then None
    else if r.start != a.start || r.end > a.end || !RawSha(r.sha) then None
    else Some(ReadDetail(path.value, a.start, a.end, r.start, r.end, Written("sha256:" + r.sha), OfText(r.content)))
  }

  function SearchDetailOf(operation: Operation, r: Structured): Option<Detail>
    requires r.SearchResult?
  {
    if forall i | 0 <= i < |r.matches| :: AuthorizedPath(operation, r.matches[i].path).Some? && r.matches[i].line >= 1
    then Some(SearchDetail(|r.matches|, r.truncated)) else None
  }

  function WriteDetailOf(operation: Operation, a: Arguments, r: Structured): Option<Detail>
    requires a.WriteArguments? && r.WriteResult?
  {
    var path := AuthorizedPath(operation, a.path);
    if path.None? || r.path != path.value || !RawSha(r.sha) then None
    else Some(WriteDetail(path.value, Written("sha256:" + r.sha)))
  }

  function ExecuteDetailOf(r: Structured): Option<Detail>
    requires r.ExecuteResult?
  {
    if r.success != (r.exitCode == 0) || !IsSha(Written(r.commandHash)) then None
    else Some(ExecuteDetail(r.exitCode, r.success, Written(r.commandHash), OfText(r.stdout), OfText(r.stderr)))
  }

  function InventoryDetailOf(plan: Plan, r: Structured): Option<Detail>
    requires r.InventoryResult?
  {
    if r.runId != plan.runId || r.planHash != plan.planHash || r.snapshotHash != plan.snapshotHash then None
    else if exists i | 0 <= i < |r.files| :: !RawSha(r.files[i].sha) || r.files[i].size < 0 then None
    else if exists i | 0 <= i < |r.completed| :: r.completed[i] !in PlanIds(plan) then None
    else if r.resultHash != Some(OfResult(r.(resultHash := None))) then None
    else Some(InventoryDetail(|r.files|, OfFiles(r.files), r.resultHash.value))
  }

  /** The operation a call names in its arguments and in its result. */
  function NamedOperation(a: Arguments, r: Structured): Option<string> {
    match (a, r)
    case (ReadArguments(id, _, _, _), ReadResult(other, _, _, _, _, _)) => if id == other then Some(id) else None
    case (SearchArguments(id, _), SearchResult(other, _, _)) => if id == other then Some(id) else None
    case (WriteArguments(id, _, _), WriteResult(other, _, _)) => if id == other then Some(id) else None
    case (ExecuteArguments(id), ExecuteResult(other, _, _, _, _, _)) => if id == other then Some(id) else None
    case _ => None
  }

  /** The arguments and the result have the shape of the tool. */
  predicate Shaped(tool: Tool, a: Arguments, r: Structured) {
    match tool
    case WorkerRead => a.ReadArguments? && r.ReadResult?
    case WorkerSearch => a.SearchArguments? && r.SearchResult?
    case WorkerWrite => a.WriteArguments? && r.WriteResult?
    case WorkerExecute => a.ExecuteArguments? && r.ExecuteResult?
    case WorkerInventory => a.InventoryArguments? && r.InventoryResult?
  }

  function DetailOf(operation: Operation, tool: Tool, a: Arguments, r: Structured): Option<Detail>
    requires Shaped(tool, a, r) && tool != WorkerInventory
  {
    match tool
    case WorkerRead => ReadDetailOf(operation, a, r)
    case WorkerSearch => SearchDetailOf(operation, r)
    case WorkerWrite => WriteDetailOf(operation, a, r)
    case WorkerExecute => ExecuteDetailOf(r)
  }

  function Sealed(item: Item, tool: Tool, operationId: Option<string>, detail: Option<Detail>, sequence: int): Option<Receipt> {
    if detail.None? then None
    else
      var body := Body(sequence, SERVER, tool, "completed", operationId, OfArguments(item.arguments), OfResult(item.result), detail.value);
      Some(Receipt(body, body))
  }

  /** The receipt of one completed call, or none when the call is refused. */
  function BuildReceipt(item: Item, plan: Plan, sequence: int): Option<Receipt> {
    if item.server != SERVER || item.tool.None? || !item.completed || !item.errorFree then None
    else if !Shaped(item.tool.value, item.arguments, item.result) || sequence < 1 then None
    else
      var tool := item.tool.value;
      if tool == WorkerInventory then Sealed(item, tool, None, InventoryDetailOf(plan, item.result), sequence)
      else
        var id := NamedOperation(item.arguments, item.result);
        if id.None? || PlannedFor(plan, tool, id.value).None? then None
        else Sealed(item, tool, id, DetailOf(PlannedFor(plan, tool, id.value).value, tool, item.arguments, item.result), sequence)
  }

  // ----- The check of persisted receipts -----

  predicate DetailShaped(tool: Tool, detail: Detail) {
    match tool
    case WorkerRead => detail.ReadDetail?
    case WorkerSearch => detail.SearchDetail?
    case WorkerWrite => detail.WriteDetail?
    case WorkerExecute => detail.ExecuteDetail?
    case WorkerInventory => detail.InventoryDetail?
  }

  predicate HashesOk(detail: Detail) {
    match detail
    case ReadDetail(_, _, _, _, _, source, content) => IsSha(source) && IsSha(content)
    case SearchDetail(_, _) => true
    case WriteDetail(_, output) => IsSha(output)
    case ExecuteDetail(_, _, command, stdout, stderr) => IsSha(command) && IsSha(stdout) && IsSha(stderr)
    case InventoryDetail(_, manifest, inventory) => IsSha(manifest) && IsSha(inventory)
  }

  predicate DetailOk(detail: Detail) {
    match detail
    case ReadDetail(_, requestedStart, requestedEnd, returnedStart, returnedEnd, _, _) =>
      1 <= requestedStart <= requestedEnd && 1 <= returnedStart <= returnedEnd
      && returnedStart == requestedStart && returnedEnd <= requestedEnd
    case SearchDetail(matchCount, _) => matchCount >= 0
    case WriteDetail(_, _) => true
    case ExecuteDetail(exitCode, success, _, _, _) => success == (exitCode == 0)
    case InventoryDetail(fileCount, _, _) => fileCount >= 0
  }

  predicate PathOk(operation: Operation, detail: Detail) {
    match detail
    case ReadDetail(path, _, _, _, _, _, _) => AuthorizedPath(operation, path).Some?
    case WriteDetail(path, _) => AuthorizedPath(operation, path).Some?
    case _ => true
  }

  predicate OperationOk(body: Body, plan: Plan) {
    if body.tool == WorkerInventory then body.operationId.None?
    else
      body.operationId.Some? && PlannedFor(plan, body.tool, body.operationId.value).Some?
      && PathOk(PlannedFor(plan, body.tool, body.operationId.value).value, body.detail)
  }

  /** Everything the check asks of the receipt at one place of the list. */
  predicate ReceiptOk(receipt: Receipt, plan: Plan, sequence: int) {
    var body := receipt.body;
    && DetailShaped(body.tool, body.detail)
    && body.sequence == sequence && body.server == SERVER && body.status == "completed" && receipt.hashed == body
    && IsSha(body.arguments) && IsSha(body.result)
    && OperationOk(body, plan) && DetailOk(body.detail) && HashesOk(body.detail)
  }

  function Observed(receipts: seq<Receipt>): set<string> {
    set i | 0 <= i < |receipts| && receipts[i].body.tool != WorkerInventory && receipts[i].body.operationId.Some? ::
      receipts[i].body.operationId.value
  }

  /** The receipt at this place is sound and numbered by its place. */
  predicate SoundAt(receipts: seq<Receipt>, plan: Plan, i: nat)
    requires i < |receipts|
  {
    ReceiptOk(receipts[i], plan, i + 1)
  }

  predicate FirstOk(receipts: seq<Receipt>, plan: Plan, n: nat) {
    n <= |receipts| && forall j {:trigger SoundAt(receipts, plan, j)} | 0 <= j < n :: SoundAt(receipts, plan, j)
  }

  predicate Accepted(receipts: seq<Receipt>, plan: Plan) {
    && receipts != []
    && FirstOk(receipts, plan, |receipts|)
    && Observed(receipts) == PlanIds(plan)
  }

  /** The operation that one receipt stands for. */
  function Names(receipt: Receipt): set<string> {
    if receipt.body.tool != WorkerInventory && receipt.body.operationId.Some? then {receipt.body.operationId.value} else {}
  }

  lemma ObservedMore(receipts: seq<Receipt>, i: nat)
    requires i < |receipts|
    ensures Observed(receipts[..i + 1]) == Observed(receipts[..i]) + Names(receipts[i])
  {
    var before, after := receipts[..i], receipts[..i + 1];
    assert after[i] == receipts[i];
    forall id | id in Observed(before) ensures id in Observed(after) {
      var j :| 0 <= j < |before| && before[j].body.tool != WorkerInventory && before[j].body.operationId == Some(id);
      assert after[j] == before[j];
    }
  }

  method ValidateWorkerToolReceipts(receipts: seq<Receipt>, plan: Plan) returns (ok: bool)
    ensures ok <==> Accepted(receipts, plan)
  {
    if receipts == [] {
      return false;
    }
    var observed: set<string> := {};
    for i := 0 to |receipts|
      invariant FirstOk(receipts, plan, i)
      invariant observed == Observed(receipts[..i])
    {
      var ok := SoundAt(receipts, plan, i);
      if !ok {
        return false;
      }
      ObservedMore(receipts, i);
      observed := observed + Names(receipts[i]);
    }
    assert receipts[..|receipts|] == receipts;
    return observed == PlanIds(plan);
  }

  /** The builder and the check agree: a built receipt passes every test of a single receipt at its place. */
  lemma BuiltReceiptPasses(item: Item, plan: Plan, sequence: int)
    requires BuildReceipt(item, plan, sequence).Some?
    ensures ReceiptOk(BuildReceipt(item, plan, sequence).value, plan, sequence)
  {
    var tool := item.tool.value;
    match tool {
      case WorkerRead => BuiltRead(item, plan, sequence);
      case WorkerWrite => BuiltWrite(item, plan, sequence);
      case _ =>
    }
  }

  lemma ShaOfRaw(s: string)
    requires RawSha(s)
    ensures IsSha(Written("sha256:" + s))
  {
    assert ("sha256:" + s)[7..] == s;
  }

  lemma BuiltRead(item: Item, plan: Plan, sequence: int)
    requires BuildReceipt(item, plan, sequence).Some? && item.tool == Some(WorkerRead)
    ensures ReceiptOk(BuildReceipt(item, plan, sequence).value, plan, sequence)
  {
    var operation := PlannedFor(plan, WorkerRead, item.arguments.operationId).value;
    AuthorizedIsStable(operation, item.arguments.path);
    ShaOfRaw(item.result.sha);
  }

  lemma BuiltWrite(item: Item, plan: Plan, sequence: int)
    requires BuildReceipt(item, plan, sequence).Some? && item.tool == Some(WorkerWrite)
    ensures ReceiptOk(BuildReceipt(item, plan, sequence).value, plan, sequence)
  {
    var operation := PlannedFor(plan, WorkerWrite, item.arguments.operationId).value;
    AuthorizedIsStable(operation, item.arguments.path);
    ShaOfRaw(item.result.sha);
  }

  // ----- What a built receipt says of its call -----

  /** A relative path that never goes up and lies under a path of the operation; `plain` is its plain form. */
  predicate LiesUnder(operation: Operation, path: string, plain: string) {
    && path != "" && path[0] != '/' && ".." !in Parts(path) && plain == AsPosix(Parts(path))
    && exists i | 0 <= i < |operation.paths| :: LeadsTo(operation.paths[i], path)
  }

  predicate LeadsTo(root: string, path: string) {
    (root == "" || root[0] != '/') && Parts(root) <= Parts(path)
  }

  /** The operation is in the plan, has this ID, and is of the kind that belongs to the tool. */
  predicate Serves(plan: Plan, operation: Operation, id: string, tool: Tool) {
    && operation in plan.operations && operation.id == id
    && (tool == WorkerRead <==> operation.kind == Read)
    && (tool == WorkerSearch <==> operation.kind == Search)
    && (tool == WorkerWrite <==> operation.kind == Patch)
    && (tool == WorkerExecute <==> operation.kind == Test || operation.kind == Build || operation.kind == Experiment)
    && tool != WorkerInventory
  }

  predicate SaysRead(detail: Detail, operation: Operation, a: Arguments, r: Structured) {
    && a.ReadArguments? && r.ReadResult? && detail.ReadDetail?
    && LiesUnder(operation, a.path, detail.path) && r.path == detail.path
    && detail.requestedStart == a.start == r.start == detail.returnedStart >= 1
    && detail.requestedEnd == a.end && detail.returnedEnd == r.end && r.start <= r.end <= a.end
    && RawSha(r.sha) && detail.source == Written("sha256:" + r.sha) && detail.content == OfText(r.content)
  }

  predicate SaysSearch(detail: Detail, operation: Operation, r: Structured) {
    && r.SearchResult? && detail.SearchDetail? && detail.matchCount == |r.matches| && detail.truncated == r.truncated
    && forall i | 0 <= i < |r.matches| ::
         r.matches[i].line >= 1 && LiesUnder(operation, r.matches[i].path, AsPosix(Parts(r.matches[i].path)))
  }

  predicate SaysWrite(detail: Detail, operation: Operation, a: Arguments, r: Structured) {
    && a.WriteArguments? && r.WriteResult? && detail.WriteDetail?
    && LiesUnder(operation, a.path, detail.path) && r.path == detail.path
    && RawSha(r.sha) && detail.output == Written("sha256:" + r.sha)
  }

  predicate SaysExecute(detail: Detail, r: Structured) {
    && r.ExecuteResult? && detail.ExecuteDetail?
    && detail.exitCode == r.exitCode && detail.success == r.success == (r.exitCode == 0)
    && detail.command == Written(r.commandHash) && detail.stdout == OfText(r.stdout) && detail.stderr == OfText(r.stderr)
  }

  predicate SaysInventory(detail: Detail, plan: Plan, r: Structured) {
    && r.InventoryResult? && detail.InventoryDetail?
    && r.runId == plan.runId && r.planHash == plan.planHash && r.snapshotHash == plan.snapshotHash
    && (forall i | 0 <= i < |r.files| :: RawSha(r.files[i].sha) && r.files[i].size >= 0)
    && (forall i | 0 <= i < |r.completed| :: r.completed[i] in PlanIds(plan))
    && detail.fileCount == |r.files| && detail.manifest == OfFiles(r.files)
    && r.resultHash == Some(detail.inventory) && detail.inventory == OfResult(r.(resultHash := None))
  }

  lemma AuthorizedLiesUnder(operation: Operation, path: string)
    ensures AuthorizedPath(operation, path).Some? <==> LiesUnder(operation, path, AsPosix(Parts(path)))
    ensures AuthorizedPath(operation, path).Some? ==> AuthorizedPath(operation, path).value == AsPosix(Parts(path))
  {
    forall i | 0 <= i < |operation.paths|
      ensures LeadsTo(operation.paths[i], path) <==> Under(Parts(path), operation.paths[i])
    {
    }
  }

  lemma PlannedServes(plan: Plan, tool: Tool, id: string)
    requires PlannedFor(plan, tool, id).Some?
    ensures tool == WorkerInventory || Serves(plan, PlannedFor(plan, tool, id).value, id, tool)
  {
  }

  /** The operation of a receipt, and what the receipt says, are those of the call. */
  ghost predicate SaysCall(body: Body, item: Item, plan: Plan) {
    if body.tool == WorkerInventory then body.operationId == None && SaysInventory(body.detail, plan, item.result)
    else body.operationId.Some? && exists operation ::
      Serves(plan, operation, body.operationId.value, body.tool) && SaysOperation(body, operation, item)
  }

  predicate SaysOperation(body: Body, operation: Operation, item: Item)
    requires body.operationId.Some?
  {
    match body.tool
    case WorkerRead => SaysRead(body.detail, operation, item.arguments, item.result)
      && item.arguments.operationId == item.result.operationId == body.operationId.value
    case WorkerSearch => SaysSearch(body.detail, operation, item.result)
      && item.arguments.SearchArguments? && item.arguments.operationId == item.result.operationId == body.operationId.value
    case WorkerWrite => SaysWrite(body.detail, operation, item.arguments, item.result)
      && item.arguments.operationId == item.result.operationId == body.operationId.value
    case WorkerExecute => SaysExecute(body.detail, item.result)
      && item.arguments.ExecuteArguments? && item.arguments.operationId == item.result.operationId == body.operationId.value
    case WorkerInventory => false
  }

  /** Every field of a built receipt, from the call it was built from. */
  lemma BuiltReceiptSaysTheCall(item: Item, plan: Plan, sequence: int)
    requires BuildReceipt(item, plan, sequence).Some?
    ensures var receipt := BuildReceipt(item, plan, sequence).value;
      && receipt.hashed == receipt.body
      && receipt.body.sequence == sequence >= 1 && receipt.body.server == item.server == "ur_worker"
      && receipt.body.status == "completed" && item.completed && item.errorFree && item.tool == Some(receipt.body.tool)
      && receipt.body.arguments == OfArguments(item.arguments) && receipt.body.result == OfResult(item.result)
    ensures SaysCall(BuildReceipt(item, plan, sequence).value.body, item, plan)
  {
    var body := BuildReceipt(item, plan, sequence).value.body;
    if body.tool != WorkerInventory { BuiltSaysOperation(item, plan, sequence); }
  }

  lemma BuiltSaysOperation(item: Item, plan: Plan, sequence: int)
    requires BuildReceipt(item, plan, sequence).Some? && item.tool.value != WorkerInventory
    ensures SaysCall(BuildReceipt(item, plan, sequence).value.body, item, plan)
  {
    var body := BuildReceipt(item, plan, sequence).value.body;
    var operation := PlannedFor(plan, body.tool, body.operationId.value).value;
    PlannedServes(plan, body.tool, body.operationId.value);
    match body.tool {
      case WorkerRead => AuthorizedLiesUnder(operation, item.arguments.path);
      case WorkerWrite => AuthorizedLiesUnder(operation, item.arguments.path);
      case WorkerSearch =>
        forall i | 0 <= i < |item.result.matches|
          ensures LiesUnder(operation, item.result.matches[i].path, AsPosix(Parts(item.result.matches[i].path)))
        {
          AuthorizedLiesUnder(operation, item.result.matches[i].path);
        }
      case _ =>
    }
    assert SaysOperation(body, operation, item);
  }

  /** What a receipt that passes the check is: sealed, numbered, for its plan, with sane contents. */
  lemma SoundReceiptMeans(receipt: Receipt, plan: Plan, sequence: int)
    requires ReceiptOk(receipt, plan, sequence)
    ensures var body := receipt.body;
      && receipt.hashed == body && body.sequence == sequence && body.server == "ur_worker" && body.status == "completed"
      && IsSha(body.arguments) && IsSha(body.result)
    ensures var body := receipt.body;
      if body.tool == WorkerInventory then body.operationId == None
      else body.operationId.Some? && exists operation ::
        Serves(plan, operation, body.operationId.value, body.tool) && PathLies(operation, body.detail)
    ensures match receipt.body.detail
      case ReadDetail(_, requestedStart, requestedEnd, returnedStart, returnedEnd, source, content) =>
        && receipt.body.tool == WorkerRead && 1 <= requestedStart == returnedStart <= returnedEnd <= requestedEnd
        && IsSha(source) && IsSha(content)
      case SearchDetail(matchCount, _) => receipt.body.tool == WorkerSearch && matchCount >= 0
      case WriteDetail(_, output) => receipt.body.tool == WorkerWrite && IsSha(output)
      case ExecuteDetail(exitCode, success, command, stdout, stderr) =>
        && receipt.body.tool == WorkerExecute && success == (exitCode == 0)
        && IsSha(command) && IsSha(stdout) && IsSha(stderr)
      case InventoryDetail(fileCount, manifest, inventory) =>
        receipt.body.tool == WorkerInventory && fileCount >= 0 && IsSha(manifest) && IsSha(inventory)
  {
    var body := receipt.body;
    if body.tool != WorkerInventory {
      var operation := PlannedFor(plan, body.tool, body.operationId.value).value;
      PlannedServes(plan, body.tool, body.operationId.value);
      match body.detail {
        case ReadDetail(path, _, _, _, _, _, _) => AuthorizedLiesUnder(operation, path);
        case WriteDetail(path, _) => AuthorizedLiesUnder(operation, path);
        case _ =>
      }
      assert Serves(plan, operation, body.operationId.value, body.tool) && PathLies(operation, body.detail);
    }
  }

  /** The path of a read or a write lies under the operation. */
  predicate PathLies(operation: Operation, detail: Detail) {
    match detail
    case ReadDetail(path, _, _, _, _, _, _) => LiesUnder(operation, path, AsPosix(Parts(path)))
    case WriteDetail(path, _) => LiesUnder(operation, path, AsPosix(Parts(path)))
    case _ => true
  }

  /** The receipts of completed calls, numbered from one; none when a call is refused. */
  function BuildAll(items: seq<Item>, plan: Plan): (r: Option<seq<Receipt>>)
    ensures r.Some? ==> |r.value| == |items|
    decreases |items|
  {
    if items == [] then Some([])
    else
      var n := |items| - 1;
      var front, last := BuildAll(items[..n], plan), BuildReceipt(items[n], plan, n + 1);
      if front.None? || last.None? then None else Some(front.value + [last.value])
  }

  lemma {:induction false} BuiltAllPass(items: seq<Item>, plan: Plan)
    requires BuildAll(items, plan).Some?
    ensures var receipts := BuildAll(items, plan).value;
      forall i | 0 <= i < |receipts| :: ReceiptOk(receipts[i], plan, i + 1)
    decreases |items|
  {
    if items != [] {
      BuiltAllPass(items[..|items| - 1], plan);
      BuiltReceiptPasses(items[|items| - 1], plan, |items|);
    }
  }

  /** So a list of built receipts is rejected only for being empty or for leaving out an operation of the plan. */
  lemma BuiltListRejectedOnlyForCoverage(items: seq<Item>, plan: Plan)
    requires BuildAll(items, plan).Some?
    ensures var receipts := BuildAll(items, plan).value;
      Accepted(receipts, plan) <==> receipts != [] && PlanIds(plan) <= Observed(receipts)
  {
    BuiltAllPass(items, plan);
    var receipts := BuildAll(items, plan).value;
    assert FirstOk(receipts, plan, |receipts|);
    forall id | id in Observed(receipts) ensures id in PlanIds(plan) {
      var i :| 0 <= i < |receipts| && receipts[i].body.tool != WorkerInventory && receipts[i].body.operationId == Some(id);
      assert ReceiptOk(receipts[i], plan, i + 1);
      var operation := Find(plan.operations, id).value;
      assert operation in plan.operations && operation.id == id;
    }
  }

  // ----- The call stream -----

  datatype EventType = Started | Completed | OtherEvent

  datatype Event = Event(kind: EventType, item: Item)

  predicate Readable(event: Event) {
    event.item.server == SERVER && event.item.tool.Some? && event.item.id.Some? && event.item.id.value != ""
    && event.kind != OtherEvent
  }

  function Ids(events: seq<Event>, kind: EventType): set<string> {
    set i | 0 <= i < |events| && events[i].kind == kind && events[i].item.id.Some? :: events[i].item.id.value
  }

  /** The event may follow the events before it. */
  predicate MayFollow(before: seq<Event>, event: Event) {
    && Readable(event)
    && event.item.id.value !in Ids(before, Completed)
    && (event.kind == Started ==> event.item.id.value !in Ids(before, Started))
    && (event.kind == Completed && Ids(before, Started) != {} ==> event.item.id.value in Ids(before, Started))
  }

  predicate WellOrdered(events: seq<Event>) {
    forall i | 0 <= i < |events| :: MayFollow(events[..i], events[i])
  }

  function CompletedItems(events: seq<Event>): seq<Item>
    decreases |events|
  {
    if events == [] then []
    else
      var n := |events| - 1;
      CompletedItems(events[..n]) + (if events[n].kind == Completed then [events[n].item] else [])
  }

  /** Success of the loop: an orderly stream, every call closed, every completed call buildable, the plan covered. */
  predicate Succeeds(events: seq<Event>, plan: Plan) {
    && WellOrdered(events)
    && Ids(events, Started) <= Ids(events, Completed)
    && BuildAll(CompletedItems(events), plan).Some?
    && Accepted(BuildAll(CompletedItems(events), plan).value, plan)
  }

  lemma IdsMore(events: seq<Event>, i: nat, kind: EventType)
    requires i < |events| && events[i].item.id.Some?
    ensures Ids(events[..i + 1], kind) == Ids(events[..i], kind) + (if events[i].kind == kind then {events[i].item.id.value} else {})
  {
    var before, after := events[..i], events[..i + 1];
    assert after[i] == events[i];
    forall id | id in Ids(before, kind) ensures id in Ids(after, kind) {
      var j :| 0 <= j < |before| && before[j].kind == kind && before[j].item.id == Some(id);
      assert after[j] == before[j];
    }
  }

  lemma CompletedMore(events: seq<Event>, i: nat)
    requires i < |events|
    ensures CompletedItems(events[..i + 1])
      == if events[i].kind == Completed then CompletedItems(events[..i]) + [events[i].item] else CompletedItems(events[..i])
  {
    assert events[..i + 1][..i] == events[..i];
  }

  lemma {:induction false} RefusedPrefix(items: seq<Item>, more: seq<Item>, plan: Plan)
    requires BuildAll(items, plan).None?
    ensures BuildAll(items + more, plan).None?
    decreases |more|
  {
    if more == [] {
      assert items + more == items;
    } else {
      assert (items + more)[..|items + more| - 1] == items + more[..|more| - 1];
      RefusedPrefix(items, more[..|more| - 1], plan);
    }
  }

  lemma {:induction false} CompletedPrefix(events: seq<Event>, n: nat) returns (more: seq<Item>)
    requires n <= |events|
    ensures CompletedItems(events) == CompletedItems(events[..n]) + more
    decreases |events| - n
  {
    if n == |events| {
      assert events[..n] == events;
      more := [];
    } else {
      var rest := CompletedPrefix(events, n + 1);
      CompletedMore(events, n);
      more := (if events[n].kind == Completed then [events[n].item] else []) + rest;
    }
  }

  /** The variables of the loop before the i-th event. */
  ghost predicate LoopState(
    events: seq<Event>, plan: Plan, i: nat, started: set<string>, completed: set<string>, receipts: seq<Receipt>)
    requires i <= |events|
  {
    && WellOrdered(events[..i])
    && started == Ids(events[..i], Started) && completed == Ids(events[..i], Completed)
    && BuildAll(CompletedItems(events[..i]), plan) == Some(receipts)
  }

  lemma OrderedMore(events: seq<Event>, i: nat)
    requires i < |events| && WellOrdered(events[..i]) && MayFollow(events[..i], events[i])
    ensures WellOrdered(events[..i + 1])
  {
    var after := events[..i + 1];
    forall j | 0 <= j < |after| ensures MayFollow(after[..j], after[j]) {
      assert after[..j] == events[..j];
      if j < i { assert events[..i][..j] == events[..j] && MayFollow(events[..i][..j], events[..i][j]); }
    }
  }

  lemma StateAfterStart(
    events: seq<Event>, plan: Plan, i: nat, started: set<string>, completed: set<string>, receipts: seq<Receipt>)
    requires i < |events| && LoopState(events, plan, i, started, completed, receipts)
    requires MayFollow(events[..i], events[i]) && events[i].kind == Started
    ensures LoopState(events, plan, i + 1, started + {events[i].item.id.value}, completed, receipts)
  {
    OrderedMore(events, i);
    IdsMore(events, i, Started);
    IdsMore(events, i, Completed);
    CompletedMore(events, i);
  }

  lemma OneMoreReceipt(events: seq<Event>, plan: Plan, i: nat, receipts: seq<Receipt>)
    requires i < |events| && events[i].kind == Completed && BuildAll(CompletedItems(events[..i]), plan) == Some(receipts)
    requires BuildReceipt(events[i].item, plan, |receipts| + 1).Some?
    ensures BuildAll(CompletedItems(events[..i + 1]), plan)
      == Some(receipts + [BuildReceipt(events[i].item, plan, |receipts| + 1).value])
  {
    CompletedMore(events, i);
    BuildOneMore(CompletedItems(events[..i]), events[i].item, plan, receipts);
  }

  lemma BuildOneMore(items: seq<Item>, item: Item, plan: Plan, receipts: seq<Receipt>)
    requires BuildAll(items, plan) == Some(receipts) && BuildReceipt(item, plan, |receipts| + 1).Some?
    ensures BuildAll(items + [item], plan) == Some(receipts + [BuildReceipt(item, plan, |receipts| + 1).value])
  {
    assert (items + [item])[..|items|] == items;
  }

  lemma StateAfterCompletion(
    events: seq<Event>, plan: Plan, i: nat, started: set<string>, completed: set<string>, receipts: seq<Receipt>)
    requires i < |events| && LoopState(events, plan, i, started, completed, receipts)
    requires MayFollow(events[..i], events[i]) && events[i].kind == Completed
    requires BuildReceipt(events[i].item, plan, |receipts| + 1).Some?
    ensures LoopState(events, plan, i + 1, started, completed + {events[i].item.id.value},
      receipts + [BuildReceipt(events[i].item, plan, |receipts| + 1).value])
  {
    OrderedMore(events, i);
    IdsMore(events, i, Started);
    IdsMore(events, i, Completed);
    OneMoreReceipt(events, plan, i, receipts);
  }

  lemma RefusedCall(events: seq<Event>, plan: Plan, i: nat, receipts: seq<Receipt>)
    requires i < |events| && events[i].kind == Completed && BuildAll(CompletedItems(events[..i]), plan) == Some(receipts)
    requires BuildReceipt(events[i].item, plan, |receipts| + 1).None?
    ensures !Succeeds(events, plan)
  {
    CompletedMore(events, i);
    var items := CompletedItems(events[..i]);
    assert (items + [events[i].item])[..|items|] == items;
    var more := CompletedPrefix(events, i + 1);
    RefusedPrefix(items + [events[i].item], more, plan);
  }

  /** The test of one event against the two sets of call IDs. */
  predicate Admissible(started: set<string>, completed: set<string>, event: Event) {
    if event.item.server != SERVER || event.item.tool.None? || event.item.id.None? || event.item.id.value == "" then false
    else
      var id := event.item.id.value;
      if event.kind == Started then id !in started && id !in completed
      else event.kind == Completed && id !in completed && (started == {} || id in started)
  }

  /** The loop over the events of the worker's calls. */
  method RunCalls(events: seq<Event>, plan: Plan) returns (result: Option<seq<Receipt>>)
    ensures result.Some? <==> Succeeds(events, plan)
    ensures result.Some? ==> result == BuildAll(CompletedItems(events), plan)
  {
    var started: set<string>, completed: set<string> := {}, {};
    var receipts: seq<Receipt> := [];
    for i := 0 to |events|
      invariant LoopState(events, plan, i, started, completed, receipts)
    {
      if !Admissible(started, completed, events[i]) {
        assert !MayFollow(events[..i], events[i]);
        return None;
      }
      var id := events[i].item.id.value;
      if events[i].kind == Started {
        StateAfterStart(events, plan, i, started, completed, receipts);
        started := started + {id};
        continue;
      }
      var receipt := BuildReceipt(events[i].item, plan, |receipts| + 1);
      if receipt.None? {
        RefusedCall(events, plan, i, receipts);
        return None;
      }
      StateAfterCompletion(events, plan, i, started, completed, receipts);
      completed := completed + {id};
      receipts := receipts + [receipt.value];
    }
    assert events[..|events|] == events;
    if !(started <= completed) {
      return None;
    }
    var ok := ValidateWorkerToolReceipts(receipts, plan);
    return if ok then Some(receipts) else None;
  }

  lemma IdAt(events: seq<Event>, i: nat, j: nat)
    requires i < j <= |events| && events[i].item.id.Some?
    ensures events[i].item.id.value in Ids(events[..j], events[i].kind)
  {
    assert events[..j][i] == events[i];
  }

  lemma FindEvent(events: seq<Event>, kind: EventType, id: string) returns (j: nat)
    requires id in Ids(events, kind)
    ensures j < |events| && events[j].kind == kind && events[j].item.id == Some(id)
  {
    j :| 0 <= j < |events| && events[j].kind == kind && events[j].item.id.Some? && events[j].item.id.value == id;
  }

  predicate SameCall(a: Event, b: Event) {
    a.item.id == b.item.id
  }

  /** In an orderly stream no call is started twice or completed twice. */
  lemma CallsAreNotRepeated(events: seq<Event>, i: nat, j: nat)
    requires WellOrdered(events) && i < j < |events| && events[i].kind == events[j].kind
    ensures !SameCall(events[i], events[j])
  {
    assert MayFollow(events[..i], events[i]) && MayFollow(events[..j], events[j]);
    IdAt(events, i, j);
  }

  /** When a stream succeeds, every started call completes later. */
  lemma StartedCallsComplete(events: seq<Event>, plan: Plan, i: nat)
    requires Succeeds(events, plan) && i < |events| && events[i].kind == Started
    ensures exists j | i < j < |events| :: events[j].kind == Completed && SameCall(events[j], events[i])
  {
    assert MayFollow(events[..i], events[i]);
    var id := events[i].item.id.value;
    assert id in Ids(events, Started);
    var j := FindEvent(events, Completed, id);
    if j < i { IdAt(events, j, i); }
    assert SameCall(events[j], events[i]);
  }

  /** Once any call was started, a call that completes was started before. */
  lemma CompletedCallsWereStarted(events: seq<Event>, i: nat, j: nat)
    requires WellOrdered(events) && i < j < |events| && events[i].kind == Started && events[j].kind == Completed
    ensures exists k | 0 <= k < j :: events[k].kind == Started && SameCall(events[k], events[j])
  {
    assert MayFollow(events[..i], events[i]) && MayFollow(events[..j], events[j]);
    IdAt(events, i, j);
    var k := FindEvent(events[..j], Started, events[j].item.id.value);
    assert SameCall(events[k], events[j]);
  }
}
