/** The resolved view of append-only amendments: when it exists, and what it then says of every field. */
module Amendments {
  import opened Common

  /** A JSON value: null, a string, or any other value by its canonical text. */
  datatype Json = Null | Text(text: string) | Other(canonical: string)

  /** `corrects` holds the target of each `corrects` relation, none for a target that is no string. */
  datatype Record = Record(
    recordId: string, core: bool, kind: string, status: string, corrects: seq<Option<string>>,
    payload: Option<map<string, Json>>)

  // ----- The path of an amendment -----

  /** `str.replace` for a two-character escape. */
  function Replace(s: string, escape: char, plain: char): string {
    if |s| < 2 then s
    else if s[0] == '~' && s[1] == escape then [plain] + Replace(s[2..], escape, plain)
    else [s[0]] + Replace(s[1..], escape, plain)
  }

  function Decode(token: string): string {
    Replace(Replace(token, '1', '/'), '0', '~')
  }

  /** The token of a key in section 4 of RFC 6901: each `~` as `~0` and each `/` as `~1`. */
  function Encode(key: string): string {
    if key == [] then []
    else (if key[0] == '~' then "~0" else if key[0] == '/' then "~1" else [key[0]]) + Encode(key[1..])
  }

  /** The same with each `~` still escaped: what the first replacement leaves. */
  function Tildes(key: string): string {
    if key == [] then []
    else (if key[0] == '~' then "~0" else [key[0]]) + Tildes(key[1..])
  }

  lemma EncodeHead(key: string)
    ensures key != [] && Encode(key) != [] ==>
      (Encode(key)[0] == '~' <==> key[0] == '~' || key[0] == '/')
    ensures Encode(key) == [] <==> key == []
  {
  }

  lemma {:induction false} FirstReplacement(key: string)
    ensures Replace(Encode(key), '1', '/') == Tildes(key)
    decreases |key|
  {
    if key != [] {
      var token, rest := Encode(key), Encode(key[1..]);
      FirstReplacement(key[1..]);
      if key[0] == '/' {
        assert token[2..] == rest;
      } else if key[0] == '~' {
        assert token[1..] == "0" + rest && (token[1..])[1..] == rest;
        assert Replace("0" + rest, '1', '/') == "0" + Replace(rest, '1', '/');
        assert "~0" + Tildes(key[1..]) == "~" + ("0" + Tildes(key[1..]));
      } else {
        assert token[1..] == rest;
      }
    }
  }

  lemma {:induction false} SecondReplacement(key: string)
    ensures Replace(Tildes(key), '0', '~') == key
    decreases |key|
  {
    if key != [] {
      var token, rest := Tildes(key), Tildes(key[1..]);
      SecondReplacement(key[1..]);
      if key[0] == '~' {
        assert token[2..] == rest;
      } else {
        assert token[1..] == rest;
      }
      assert [key[0]] + key[1..] == key;
    }
  }

  /** Decoding undoes encoding, for every key. */
  lemma DecodeEncode(key: string)
    ensures Decode(Encode(key)) == key
  {
    FirstReplacement(key);
    SecondReplacement(key);
  }

  lemma {:induction false} EncodedHasNoSlash(key: string)
    ensures '/' !in Encode(key)
    decreases |key|
  {
    if key != [] { EncodedHasNoSlash(key[1..]); }
  }

  const PREFIX: string := "/payload/"

  /** The one payload field that a path names, or none when it is refused. */
  function PayloadKey(pointer: Json): (r: Option<string>)
  {
    if !pointer.Text? || !(PREFIX <= pointer.text) then None
    else
      var key := pointer.text[|PREFIX|..];
      if key == [] || '/' in key then None else Some(Decode(key))
  }

  /** Every key but the empty one can be amended: its encoded path names it. */
  lemma EveryKeyHasAPath(key: string)
    ensures PayloadKey(Text(PREFIX + Encode(key))) == if key == [] then None else Some(key)
  {
    EncodedHasNoSlash(key);
    DecodeEncode(key);
    EncodeHead(key);
    assert (PREFIX + Encode(key))[|PREFIX|..] == Encode(key);
  }

  /** A path names a key exactly when it is the prefix and one nonempty token without a slash that decodes to it. */
  lemma PathsNameOneField(pointer: Json, key: string)
    ensures PayloadKey(pointer) == Some(key) <==>
      exists token :: pointer == Text(PREFIX + token) && token != [] && '/' !in token && key == Decode(token)
  {
    if PayloadKey(pointer) == Some(key) {
      assert pointer.text == PREFIX + pointer.text[|PREFIX|..];
    }
    if token :| pointer == Text(PREFIX + token) && token != [] && '/' !in token && key == Decode(token) {
      assert pointer.text[|PREFIX|..] == token;
    }
  }

  // ----- Amendments as edits -----

  datatype Edit = Edit(target: string, key: string, recorded: Json, corrected: Json)

  predicate IsAmendment(record: Record) {
    record.core && record.kind == "amendment"
  }

  function Get(payload: map<string, Json>, field: string): Json {
    if field in payload then payload[field] else Null
  }

  /** The edit that an amendment asks for, if it is complete enough to ask for one. */
  function EditOf(record: Record): Option<Edit> {
    if !IsAmendment(record) || record.status != "completed" then None
    else if |record.corrects| != 1 || record.corrects[0].None? || record.payload.None? then None
    else
      var key := PayloadKey(Get(record.payload.value, "path"));
      if key.None? then None
      else Some(Edit(record.corrects[0].value, key.value,
                     Get(record.payload.value, "recorded_value"), Get(record.payload.value, "corrected_value")))
  }

  /** The edits of a list of records, in order. */
  function Edits(records: seq<Record>): seq<Edit>
    decreases |records|
  {
    if records == [] then []
    else
      var n := |records| - 1;
      Edits(records[..n]) + (if EditOf(records[n]).Some? then [EditOf(records[n]).value] else [])
  }

  /** Those of one field of one record. */
  function On(edits: seq<Edit>, target: string, key: string): seq<Edit>
    decreases |edits|
  {
    if edits == [] then []
    else
      var n := |edits| - 1;
      On(edits[..n], target, key) + (if edits[n].target == target && edits[n].key == key then [edits[n]] else [])
  }

  /** Each edit records the value that the one before it left. */
  predicate Linked(original: Json, edits: seq<Edit>)
    decreases |edits|
  {
    edits == []
    || (&& Linked(original, edits[..|edits| - 1])
        && edits[|edits| - 1].recorded == ValueAfter(original, edits[..|edits| - 1]))
  }

  function ValueAfter(original: Json, edits: seq<Edit>): Json {
    if edits == [] then original else edits[|edits| - 1].corrected
  }

  lemma LinkedMore(original: Json, edits: seq<Edit>, edit: Edit)
    ensures Linked(original, edits + [edit]) <==> Linked(original, edits) && edit.recorded == ValueAfter(original, edits)
  {
    assert (edits + [edit])[..|edits|] == edits;
  }

  /** The chain of values: each recorded value is what the edit before it left. */
  lemma {:induction false} LinkedAt(original: Json, edits: seq<Edit>, i: nat)
    requires Linked(original, edits) && i < |edits|
    ensures edits[i].recorded == if i == 0 then original else edits[i - 1].corrected
    decreases |edits|
  {
    if i < |edits| - 1 { LinkedAt(original, edits[..|edits| - 1], i); }
  }

  lemma OnMore(edits: seq<Edit>, edit: Edit, target: string, key: string)
    ensures On(edits + [edit], target, key)
      == if edit.target == target && edit.key == key then On(edits, target, key) + [edit] else On(edits, target, key)
  {
    assert (edits + [edit])[..|edits|] == edits;
  }

  // ----- The view -----

  predicate UniqueIds(records: seq<Record>) {
    forall i, j | 0 <= i < j < |records| && records[i].recordId != "" :: records[i].recordId != records[j].recordId
  }

  /** The amended field exists: some record with the target's ID has it in its payload. */
  predicate FieldExists(records: seq<Record>, target: string, key: string) {
    exists p | 0 <= p < |records| :: HasField(records[p], target, key)
  }

  predicate HasField(record: Record, target: string, key: string) {
    record.recordId != "" && record.recordId == target && record.payload.Some? && key in record.payload.value
  }

  /** The amendment is complete, and the field it amends exists. */
  predicate Sound(records: seq<Record>, amendment: Record) {
    EditOf(amendment).Some? && FieldExists(records, EditOf(amendment).value.target, EditOf(amendment).value.key)
  }

  /** What a field holds once the edits are applied to it. */
  function Resolved(record: Record, edits: seq<Edit>, key: string): Json
    requires record.payload.Some? && key in record.payload.value
  {
    if record.recordId == "" then record.payload.value[key]
    else ValueAfter(record.payload.value[key], On(edits, record.recordId, key))
  }

  /** The record with nothing but its payload values changed, and those to what the edits say. */
  predicate ShowsEdits(view: Record, record: Record, edits: seq<Edit>) {
    && view == record.(payload := view.payload)
    && (view.payload.Some? <==> record.payload.Some?)
    && (record.payload.Some? ==>
          && view.payload.value.Keys == record.payload.value.Keys
          && forall key | key in record.payload.value :: view.payload.value[key] == Resolved(record, edits, key))
  }

  ghost predicate FieldLinked(record: Record, edits: seq<Edit>, key: string) {
    Amendable(record, key) ==>
      Linked(record.payload.value[key], On(edits, record.recordId, key))
  }

  ghost predicate AllLinked(records: seq<Record>, edits: seq<Edit>) {
    forall p, key | 0 <= p < |records| :: FieldLinked(records[p], edits, key)
  }

  datatype Applied = Applied(amendmentId: string, target: string, path: Json)

  datatype Outcome = Resolution(records: seq<Record>, applied: seq<Applied>) | Refused

  function AppliedBy(record: Record): Applied
    requires EditOf(record).Some?
  {
    Applied(record.recordId, EditOf(record).value.target, Get(record.payload.value, "path"))
  }

  function AllApplied(records: seq<Record>): seq<Applied>
    decreases |records|
  {
    if records == [] then []
    else
      var n := |records| - 1;
      AllApplied(records[..n]) + (if EditOf(records[n]).Some? then [AppliedBy(records[n])] else [])
  }

  /** When a view exists: IDs are unique, amendments complete, fields there, and every field's amendments linked. */
  ghost predicate Resolvable(records: seq<Record>) {
    && UniqueIds(records)
    && (forall i | 0 <= i < |records| && IsAmendment(records[i]) :: Sound(records, records[i]))
    && AllLinked(records, Edits(records))
  }

  lemma EditsMore(records: seq<Record>, n: nat)
    requires n < |records|
    ensures EditOf(records[n]).Some? ==>
      && Edits(records[..n + 1]) == Edits(records[..n]) + [EditOf(records[n]).value]
      && AllApplied(records[..n + 1]) == AllApplied(records[..n]) + [AppliedBy(records[n])]
    ensures EditOf(records[n]).None? ==>
      Edits(records[..n + 1]) == Edits(records[..n]) && AllApplied(records[..n + 1]) == AllApplied(records[..n])
  {
    assert records[..n + 1][..n] == records[..n];
  }

  /** A field of a record that amendments can name. */
  predicate Amendable(record: Record, key: string) {
    record.recordId != "" && record.payload.Some? && key in record.payload.value
  }

  /** Links of all amendments include the links of the first ones. */
  lemma {:induction false} PrefixLinked(record: Record, edits: seq<Edit>, n: nat, key: string)
    requires n <= |edits| && FieldLinked(record, edits, key)
    ensures FieldLinked(record, edits[..n], key)
    decreases |edits|
  {
    if n < |edits| {
      var m := |edits| - 1;
      assert edits == edits[..m] + [edits[m]];
      OneMoreEdit(record, edits[..m], edits[m], key);
      PrefixLinked(record, edits[..m], n, key);
      assert edits[..m][..n] == edits[..n];
    } else {
      assert edits[..n] == edits;
    }
  }

  lemma {:induction false} EditsPrefix(records: seq<Record>, n: nat)
    requires n <= |records|
    ensures Edits(records[..n]) <= Edits(records)
    decreases |records| - n
  {
    if n < |records| {
      EditsMore(records, n);
      EditsPrefix(records, n + 1);
    } else {
      assert records[..n] == records;
    }
  }

  /** One more edit: the field stays linked exactly when the edit is of another field or records what it holds now. */
  lemma OneMoreEdit(record: Record, edits: seq<Edit>, edit: Edit, key: string)
    ensures FieldLinked(record, edits + [edit], key) <==>
      && FieldLinked(record, edits, key)
      && (HasField(record, edit.target, edit.key) && key == edit.key ==> edit.recorded == Resolved(record, edits, key))
  {
    OnMore(edits, edit, record.recordId, key);
    if Amendable(record, key) {
      LinkedMore(record.payload.value[key], On(edits, record.recordId, key), edit);
    }
  }

  /** Applying an edit to the record it names, in a view that shows the edits before it. */
  lemma ApplyEdit(view: Record, record: Record, edits: seq<Edit>, edit: Edit)
    requires ShowsEdits(view, record, edits) && HasField(record, edit.target, edit.key)
    ensures ShowsEdits(view.(payload := Some(view.payload.value[edit.key := edit.corrected])), record, edits + [edit])
  {
    forall key | key in record.payload.value
      ensures Resolved(record, edits + [edit], key) == if key == edit.key then edit.corrected else Resolved(record, edits, key)
    {
      OnMore(edits, edit, record.recordId, key);
    }
  }

  lemma SkipEdit(view: Record, record: Record, edits: seq<Edit>, edit: Edit)
    requires ShowsEdits(view, record, edits) && (record.recordId == "" || record.recordId != edit.target)
    ensures ShowsEdits(view, record, edits + [edit])
  {
    if record.payload.Some? {
      forall key | key in record.payload.value ensures Resolved(record, edits + [edit], key) == Resolved(record, edits, key) {
        OnMore(edits, edit, record.recordId, key);
      }
    }
  }

  ghost predicate ViewShows(view: seq<Record>, records: seq<Record>, edits: seq<Edit>) {
    |view| == |records| && forall p | 0 <= p < |records| :: ShowsEdits(view[p], records[p], edits)
  }

  lemma ViewAfterEdit(view: seq<Record>, records: seq<Record>, edits: seq<Edit>, p: nat, edit: Edit)
    requires UniqueIds(records) && ViewShows(view, records, edits) && AllLinked(records, edits)
    requires p < |records| && HasField(records[p], edit.target, edit.key)
    requires edit.recorded == view[p].payload.value[edit.key]
    ensures ViewShows(view[p := view[p].(payload := Some(view[p].payload.value[edit.key := edit.corrected]))], records, edits + [edit])
    ensures AllLinked(records, edits + [edit])
  {
    var view' := view[p := view[p].(payload := Some(view[p].payload.value[edit.key := edit.corrected]))];
    forall q | 0 <= q < |records| ensures ShowsEdits(view'[q], records[q], edits + [edit]) {
      if q == p { ApplyEdit(view[p], records[p], edits, edit); } else { SkipEdit(view[q], records[q], edits, edit); }
    }
    forall q, key | 0 <= q < |records| ensures FieldLinked(records[q], edits + [edit], key) {
      assert FieldLinked(records[q], edits, key);
      OneMoreEdit(records[q], edits, edit, key);
    }
  }

  /** The edits up to and with the n-th record's are the first edits of all. */
  lemma EditsUpTo(records: seq<Record>, n: nat, edit: Edit)
    requires n < |records| && EditOf(records[n]) == Some(edit)
    ensures var edits := Edits(records[..n]);
      |edits| < |Edits(records)| && Edits(records)[..|edits| + 1] == edits + [edit]
  {
    EditsMore(records, n);
    EditsPrefix(records, n + 1);
  }

  lemma BrokenPrefix(record: Record, all: seq<Edit>, n: nat, edits: seq<Edit>, key: string)
    requires n <= |all| && all[..n] == edits && !FieldLinked(record, edits, key)
    ensures !FieldLinked(record, all, key)
  {
    if FieldLinked(record, all, key) { PrefixLinked(record, all, n, key); }
  }

  lemma BrokenField(records: seq<Record>, n: nat, p: nat, edit: Edit)
    requires n < |records| && EditOf(records[n]) == Some(edit)
    requires p < |records| && HasField(records[p], edit.target, edit.key)
    requires edit.recorded != Resolved(records[p], Edits(records[..n]), edit.key)
    ensures !FieldLinked(records[p], Edits(records), edit.key)
  {
    var edits := Edits(records[..n]);
    EditsUpTo(records, n, edit);
    OneMoreEdit(records[p], edits, edit, edit.key);
    BrokenPrefix(records[p], Edits(records), |edits| + 1, edits + [edit], edit.key);
  }

  method IndexRecords(records: seq<Record>) returns (index: map<string, nat>, unique: bool)
    ensures unique <==> UniqueIds(records)
    ensures unique ==> Indexes(index, records)
  {
    index := map[];
    for p := 0 to |records|
      invariant forall q | 0 <= q < p && records[q].recordId != "" :: records[q].recordId in index
      invariant forall id | id in index :: id != "" && index[id] < p && records[index[id]].recordId == id
      invariant forall i, j | 0 <= i < j < p && records[i].recordId != "" :: records[i].recordId != records[j].recordId
    {
      var id := records[p].recordId;
      if id != "" {
        if id in index {
          return index, false;
        }
        index := index[id := p];
      }
    }
    return index, true;
  }

  /** What the loop keeps before the n-th record. */
  ghost predicate Resolving(records: seq<Record>, n: nat, view: seq<Record>, applied: seq<Applied>)
    requires n <= |records|
  {
    && ViewShows(view, records, Edits(records[..n])) && AllLinked(records, Edits(records[..n]))
    && (forall i | 0 <= i < n && IsAmendment(records[i]) :: Sound(records, records[i]))
    && applied == AllApplied(records[..n])
  }

  lemma ResolvingStarts(records: seq<Record>)
    ensures Resolving(records, 0, records, [])
  {
    assert records[..0] == [] && Edits([]) == [] && AllApplied([]) == [];
  }

  lemma ResolvingEnds(records: seq<Record>, view: seq<Record>, applied: seq<Applied>)
    requires UniqueIds(records) && Resolving(records, |records|, view, applied)
    ensures Resolvable(records) && ViewShows(view, records, Edits(records)) && applied == AllApplied(records)
  {
    assert records[..|records|] == records;
  }

  lemma NotAnAmendment(records: seq<Record>, n: nat, view: seq<Record>, applied: seq<Applied>)
    requires n < |records| && !IsAmendment(records[n]) && Resolving(records, n, view, applied)
    ensures Resolving(records, n + 1, view, applied)
  {
    EditsMore(records, n);
  }

  predicate Indexes(index: map<string, nat>, records: seq<Record>) {
    && (forall p | 0 <= p < |records| && records[p].recordId != "" :: records[p].recordId in index)
    && forall id | id in index :: id != "" && index[id] < |records| && records[index[id]].recordId == id
  }

  lemma SameIdSamePlace(records: seq<Record>, p: nat, q: nat)
    requires UniqueIds(records) && p < |records| && q < |records|
    requires records[p].recordId == records[q].recordId != ""
    ensures p == q
  {
  }

  lemma FieldOfIndex(index: map<string, nat>, records: seq<Record>, target: string, key: string)
    requires UniqueIds(records) && Indexes(index, records)
    ensures FieldExists(records, target, key) <==> target in index && HasField(records[index[target]], target, key)
  {
    if FieldExists(records, target, key) {
      var p :| 0 <= p < |records| && HasField(records[p], target, key);
      var q := index[target];
      SameIdSamePlace(records, p, q);
    }
  }

  /** One amendment: it is applied to the view, or refused for a reason that leaves no view at all. */
  method ApplyAmendment(
    records: seq<Record>, n: nat, index: map<string, nat>, view: seq<Record>, applied: seq<Applied>)
    returns (ok: bool, view': seq<Record>, applied': seq<Applied>)
    requires n < |records| && IsAmendment(records[n]) && UniqueIds(records) && Indexes(index, records)
    requires Resolving(records, n, view, applied)
    ensures ok ==> Resolving(records, n + 1, view', applied')
    ensures !ok ==> !Resolvable(records)
  {
    ok, view', applied' := false, view, applied;
    EditsMore(records, n);
    var edit := EditOf(records[n]);
    if edit.None? {
      return;
    }
    var id, key := edit.value.target, edit.value.key;
    FieldOfIndex(index, records, id, key);
    if id !in index {
      return;
    }
    var p := index[id];
    assert ShowsEdits(view[p], records[p], Edits(records[..n]));
    if view[p].payload.None? || key !in view[p].payload.value {
      return;
    }
    if view[p].payload.value[key] != edit.value.recorded {
      BrokenField(records, n, p, edit.value);
      return;
    }
    ViewAfterEdit(view, records, Edits(records[..n]), p, edit.value);
    ok := true;
    view' := view[p := view[p].(payload := Some(view[p].payload.value[key := edit.value.corrected]))];
    applied' := applied + [AppliedBy(records[n])];
  }

  // ----- The view in the words of the records -----

  /** The record is an amendment of this field: one target, and a path that names the key. */
  predicate Amends(record: Record, target: string, key: string) {
    && record.core && record.kind == "amendment" && record.corrects == [Some(target)]
    && record.payload.Some? && "path" in record.payload.value && PayloadKey(record.payload.value["path"]) == Some(key)
  }

  /** An entry of a payload; an absent one reads as null. */
  predicate Says(record: Record, entry: string, value: Json) {
    record.payload.Some? && value == if entry in record.payload.value then record.payload.value[entry] else Null
  }

  predicate LastBefore(records: seq<Record>, n: nat, target: string, key: string, m: int)
    requires n <= |records|
  {
    0 <= m < n && Amends(records[m], target, key) && forall j | m < j < n :: !Amends(records[j], target, key)
  }

  predicate NoneBefore(records: seq<Record>, n: nat, target: string, key: string)
    requires n <= |records|
  {
    forall j | 0 <= j < n :: !Amends(records[j], target, key)
  }

  /** What the ledger and the first `n` records say of a field: its own value, or the last correction of it. */
  predicate HoldsBefore(records: seq<Record>, p: nat, key: string, n: nat, value: Json)
    requires p < |records| && n <= |records| && Amendable(records[p], key)
  {
    || (NoneBefore(records, n, records[p].recordId, key) && value == records[p].payload.value[key])
    || exists m | 0 <= m < n :: LastBefore(records, n, records[p].recordId, key, m) && Says(records[m], "corrected_value", value)
  }

  /** The amendment is completed and amends one field that exists. */
  predicate Complete(records: seq<Record>, amendment: Record) {
    && amendment.status == "completed" && amendment.payload.Some? && "path" in amendment.payload.value
    && |amendment.corrects| == 1 && amendment.corrects[0].Some?
    && PayloadKey(amendment.payload.value["path"]).Some?
    && FieldExists(records, amendment.corrects[0].value, PayloadKey(amendment.payload.value["path"]).value)
  }

  /** Each amendment of a field records what the field held when it was made. */
  ghost predicate EachRecordsBefore(records: seq<Record>, end: nat)
    requires end <= |records|
  {
    forall p, key, n | 0 <= p < |records| && 0 <= n < end && Amendable(records[p], key) && Amends(records[n], records[p].recordId, key) ::
      RecordsHeld(records, p, key, n)
  }

  /** The recorded value is what the field held before. */
  predicate RecordsHeld(records: seq<Record>, p: nat, key: string, n: nat)
    requires p < |records| && n < |records| && Amendable(records[p], key)
  {
    records[n].payload.Some?
    && HoldsBefore(records, p, key, n,
         if "recorded_value" in records[n].payload.value then records[n].payload.value["recorded_value"] else Null)
  }

  /** The view: the records, with each field that has an ID to be amended by at its last correction. */
  ghost predicate Explains(records: seq<Record>, view: seq<Record>) {
    |view| == |records| && forall p | 0 <= p < |records| :: ExplainsRecord(records, view[p], p)
  }

  ghost predicate ExplainsRecord(records: seq<Record>, shown: Record, p: nat)
    requires p < |records|
  {
    && shown == records[p].(payload := shown.payload)
    && (shown.payload.Some? <==> records[p].payload.Some?)
    && (records[p].payload.Some? ==> shown.payload.value.Keys == records[p].payload.value.Keys)
    && (records[p].payload.Some? && records[p].recordId == "" ==> shown.payload == records[p].payload)
    && (forall key | Amendable(records[p], key) :: HoldsBefore(records, p, key, |records|, shown.payload.value[key]))
  }

  lemma EditIsAmends(record: Record, target: string, key: string)
    requires EditOf(record).Some?
    ensures Amends(record, target, key) <==> EditOf(record).value.target == target && EditOf(record).value.key == key
  {
  }

  lemma CompleteIsSound(records: seq<Record>, amendment: Record)
    requires IsAmendment(amendment)
    ensures Complete(records, amendment) <==> Sound(records, amendment)
  {
  }

  /** The one value that the ledger and the first `n` records say of a field. */
  ghost predicate HoldsOnly(records: seq<Record>, p: nat, key: string, n: nat, value: Json)
    requires p < |records| && n <= |records| && Amendable(records[p], key)
  {
    forall v {:trigger HoldsBefore(records, p, key, n, v)} :: HoldsBefore(records, p, key, n, v) <==> v == value
  }

  lemma ResolvedMore(records: seq<Record>, p: nat, key: string, n: nat)
    requires p < |records| && n < |records| && Amendable(records[p], key)
    requires IsAmendment(records[n]) ==> EditOf(records[n]).Some?
    ensures Resolved(records[p], Edits(records[..n + 1]), key) ==
      if Amends(records[n], records[p].recordId, key) then Get(records[n].payload.value, "corrected_value")
      else Resolved(records[p], Edits(records[..n]), key)
  {
    EditsMore(records, n);
    if EditOf(records[n]).Some? {
      EditIsAmends(records[n], records[p].recordId, key);
      OnMore(Edits(records[..n]), EditOf(records[n]).value, records[p].recordId, key);
    }
  }

  lemma HoldsAtStart(records: seq<Record>, p: nat, key: string)
    requires p < |records| && Amendable(records[p], key)
    ensures HoldsOnly(records, p, key, 0, Resolved(records[p], Edits(records[..0]), key))
  {
    assert records[..0] == [];
  }

  /** The value after the edits of the first records is what those records say, and nothing else is. */
  lemma {:induction false} EditsHold(records: seq<Record>, p: nat, key: string, n: nat)
    requires p < |records| && n <= |records| && Amendable(records[p], key)
    requires forall i | 0 <= i < n && IsAmendment(records[i]) :: EditOf(records[i]).Some?
    ensures HoldsOnly(records, p, key, n, Resolved(records[p], Edits(records[..n]), key))
    decreases n
  {
    if n == 0 {
      HoldsAtStart(records, p, key);
    } else {
      EditsHold(records, p, key, n - 1);
      ResolvedMore(records, p, key, n - 1);
      if Amends(records[n - 1], records[p].recordId, key) {
        AmendedNow(records, p, key, n);
      } else {
        NotAmendedNow(records, p, key, n, Resolved(records[p], Edits(records[..n - 1]), key));
      }
    }
  }

  lemma AmendedNow(records: seq<Record>, p: nat, key: string, n: nat)
    requires p < |records| && 0 < n <= |records| && Amendable(records[p], key)
    requires Amends(records[n - 1], records[p].recordId, key)
    ensures HoldsOnly(records, p, key, n, Get(records[n - 1].payload.value, "corrected_value"))
  {
    var id := records[p].recordId;
    assert LastBefore(records, n, id, key, n - 1) && !NoneBefore(records, n, id, key);
    assert forall m | LastBefore(records, n, id, key, m) :: m == n - 1;
  }

  lemma NotAmendedNow(records: seq<Record>, p: nat, key: string, n: nat, value: Json)
    requires p < |records| && 0 < n <= |records| && Amendable(records[p], key)
    requires !Amends(records[n - 1], records[p].recordId, key) && HoldsOnly(records, p, key, n - 1, value)
    ensures HoldsOnly(records, p, key, n, value)
  {
    var id := records[p].recordId;
    assert NoneBefore(records, n, id, key) <==> NoneBefore(records, n - 1, id, key);
    assert forall m :: LastBefore(records, n, id, key, m) <==> LastBefore(records, n - 1, id, key, m);
    forall v ensures HoldsBefore(records, p, key, n, v) <==> v == value {
      assert HoldsBefore(records, p, key, n - 1, v) <==> v == value;
    }
  }

  /** The amendments of the field among the first `n` records each record what it held. */
  predicate RecordedUpTo(records: seq<Record>, p: nat, key: string, n: nat)
    requires p < |records| && n <= |records| && Amendable(records[p], key)
  {
    n == 0
    || (&& RecordedUpTo(records, p, key, n - 1)
        && (Amends(records[n - 1], records[p].recordId, key) ==> RecordsHeld(records, p, key, n - 1)))
  }

  lemma {:induction false} RecordedMeans(records: seq<Record>, p: nat, key: string, n: nat)
    requires p < |records| && n <= |records| && Amendable(records[p], key)
    ensures RecordedUpTo(records, p, key, n) <==>
      forall m | 0 <= m < n && Amends(records[m], records[p].recordId, key) :: RecordsHeld(records, p, key, m)
    decreases n
  {
    if n > 0 { RecordedMeans(records, p, key, n - 1); }
  }

  /** Linked edits are amendments that each record what the field held. */
  lemma {:induction false} LinkedIsRecorded(records: seq<Record>, p: nat, key: string, n: nat)
    requires p < |records| && n <= |records| && Amendable(records[p], key)
    requires forall i | 0 <= i < n && IsAmendment(records[i]) :: EditOf(records[i]).Some?
    ensures FieldLinked(records[p], Edits(records[..n]), key) <==> RecordedUpTo(records, p, key, n)
    decreases n
  {
    if n == 0 {
      assert records[..0] == [];
    } else {
      LinkedIsRecorded(records, p, key, n - 1);
      LinkedMoreRecord(records, p, key, n - 1);
    }
  }

  /** One more record keeps a field linked exactly when it does not amend the field, or records what it held. */
  lemma LinkedMoreRecord(records: seq<Record>, p: nat, key: string, n: nat)
    requires p < |records| && n < |records| && Amendable(records[p], key)
    requires forall i | 0 <= i <= n && IsAmendment(records[i]) :: EditOf(records[i]).Some?
    ensures FieldLinked(records[p], Edits(records[..n + 1]), key) <==>
      && FieldLinked(records[p], Edits(records[..n]), key)
      && (Amends(records[n], records[p].recordId, key) ==> RecordsHeld(records, p, key, n))
  {
    var edits := Edits(records[..n]);
    EditsMore(records, n);
    if EditOf(records[n]).Some? {
      EditIsAmends(records[n], records[p].recordId, key);
      OneMoreEdit(records[p], edits, EditOf(records[n]).value, key);
      EditsHold(records, p, key, n);
    }
  }

  lemma ResolvableMeans(records: seq<Record>)
    ensures Resolvable(records) <==>
      && UniqueIds(records)
      && (forall i | 0 <= i < |records| && IsAmendment(records[i]) :: Complete(records, records[i]))
      && EachRecordsBefore(records, |records|)
  {
    forall i | 0 <= i < |records| && IsAmendment(records[i]) ensures Complete(records, records[i]) <==> Sound(records, records[i]) {
      CompleteIsSound(records, records[i]);
    }
    assert records[..|records|] == records;
    if forall i | 0 <= i < |records| && IsAmendment(records[i]) :: Sound(records, records[i]) {
      forall p, key | 0 <= p < |records| && Amendable(records[p], key)
        ensures FieldLinked(records[p], Edits(records), key) <==>
          forall m | 0 <= m < |records| && Amends(records[m], records[p].recordId, key) :: RecordsHeld(records, p, key, m)
      {
        LinkedIsRecorded(records, p, key, |records|);
        RecordedMeans(records, p, key, |records|);
      }
      RecordedByField(records);
    }
  }

  lemma RecordedByField(records: seq<Record>)
    requires forall p, key | 0 <= p < |records| && Amendable(records[p], key) ::
      FieldLinked(records[p], Edits(records), key) <==>
        forall m | 0 <= m < |records| && Amends(records[m], records[p].recordId, key) :: RecordsHeld(records, p, key, m)
    ensures AllLinked(records, Edits(records)) <==> EachRecordsBefore(records, |records|)
  {
    if AllLinked(records, Edits(records)) {
      forall p, key, n | 0 <= p < |records| && 0 <= n < |records| && Amendable(records[p], key) && Amends(records[n], records[p].recordId, key)
        ensures RecordsHeld(records, p, key, n)
      {
        assert FieldLinked(records[p], Edits(records), key);
      }
    }
    if EachRecordsBefore(records, |records|) {
      forall p, key | 0 <= p < |records| ensures FieldLinked(records[p], Edits(records), key) {}
    }
  }

  lemma ShownRecordIsExplained(records: seq<Record>, shown: Record, p: nat)
    requires p < |records| && ShowsEdits(shown, records[p], Edits(records))
    requires forall i | 0 <= i < |records| && IsAmendment(records[i]) :: EditOf(records[i]).Some?
    ensures ExplainsRecord(records, shown, p)
  {
    assert records[..|records|] == records;
    forall key | Amendable(records[p], key) ensures HoldsBefore(records, p, key, |records|, shown.payload.value[key]) {
      EditsHold(records, p, key, |records|);
    }
    if records[p].payload.Some? && records[p].recordId == "" { assert shown.payload.value == records[p].payload.value; }
  }

  lemma ShownIsExplained(records: seq<Record>, view: seq<Record>)
    requires ViewShows(view, records, Edits(records))
    requires forall i | 0 <= i < |records| && IsAmendment(records[i]) :: Sound(records, records[i])
    ensures Explains(records, view)
  {
    forall p | 0 <= p < |records| ensures ExplainsRecord(records, view[p], p) { ShownRecordIsExplained(records, view[p], p); }
  }

  /** An entry of the list of applied amendments stands for this record. */
  predicate StandsFor(entry: Applied, record: Record) {
    && record.payload.Some? && "path" in record.payload.value
    && entry.amendmentId == record.recordId && record.corrects == [Some(entry.target)]
    && entry.path == record.payload.value["path"]
  }

  /** The positions of the amendments, in order. */
  function AmendmentsOf(records: seq<Record>): (of: seq<Record>)
    ensures forall record :: record in of <==> record in records && IsAmendment(record)
    decreases |records|
  {
    if records == [] then []
    else
      var n := |records| - 1;
      assert records == records[..n] + [records[n]];
      AmendmentsOf(records[..n]) + (if IsAmendment(records[n]) then [records[n]] else [])
  }

  predicate ListsAmendments(applied: seq<Applied>, amendments: seq<Record>) {
    |applied| == |amendments| && forall i | 0 <= i < |applied| :: StandsFor(applied[i], amendments[i])
  }

  lemma {:induction false} AllAppliedStand(records: seq<Record>)
    requires forall i | 0 <= i < |records| && IsAmendment(records[i]) :: EditOf(records[i]).Some?
    ensures ListsAmendments(AllApplied(records), AmendmentsOf(records))
    decreases |records|
  {
    if records != [] {
      var n := |records| - 1;
      AllAppliedStand(records[..n]);
      if IsAmendment(records[n]) {
        AppliedStands(records[n]);
        OneMoreStands(AllApplied(records[..n]), AmendmentsOf(records[..n]), AppliedBy(records[n]), records[n]);
      }
    }
  }

  lemma AppliedStands(record: Record)
    requires EditOf(record).Some?
    ensures StandsFor(AppliedBy(record), record)
  {
  }

  lemma OneMoreStands(applied: seq<Applied>, amendments: seq<Record>, entry: Applied, record: Record)
    requires ListsAmendments(applied, amendments) && StandsFor(entry, record)
    ensures ListsAmendments(applied + [entry], amendments + [record])
  {
  }

  /**
    The view exists exactly when IDs are unique, every amendment is completed and names one field that exists, and
    records what that field held. It then shows each field at its last correction, and nothing else changed.
   */
  method ResolveCoreAmendments(records: seq<Record>) returns (outcome: Outcome)
    ensures outcome.Resolution? <==> Resolvable(records)
    ensures outcome.Resolution? ==> ViewShows(outcome.records, records, Edits(records)) && outcome.applied == AllApplied(records)
    ensures outcome.Resolution? <==>
      && UniqueIds(records)
      && (forall i | 0 <= i < |records| && IsAmendment(records[i]) :: Complete(records, records[i]))
      && EachRecordsBefore(records, |records|)
    ensures outcome.Resolution? ==> Explains(records, outcome.records) && ListsAmendments(outcome.applied, AmendmentsOf(records))
  {
    ResolvableMeans(records);
    var index, unique := IndexRecords(records);
    if !unique {
      return Refused;
    }
    var resolved := records;
    var applied: seq<Applied> := [];
    ResolvingStarts(records);
    for n := 0 to |records|
      invariant Resolving(records, n, resolved, applied)
    {
      if !IsAmendment(records[n]) {
        NotAnAmendment(records, n, resolved, applied);
      } else {
        var ok;
        ok, resolved, applied := ApplyAmendment(records, n, index, resolved, applied);
        if !ok {
          return Refused;
        }
      }
    }
    ResolvingEnds(records, resolved, applied);
    ShownIsExplained(records, resolved);
    AllAppliedStand(records);
    return Resolution(resolved, applied);
  }

  /** The last amendment at the encoded path of a key decides what the view shows there. */
  lemma LastCorrectionIsShown(records: seq<Record>, view: seq<Record>, p: nat, key: string, n: nat)
    requires Explains(records, view) && p < |records| && Amendable(records[p], key) && key != [] && n < |records|
    requires records[n].core && records[n].kind == "amendment" && records[n].corrects == [Some(records[p].recordId)]
    requires records[n].payload.Some? && "path" in records[n].payload.value
    requires records[n].payload.value["path"] == Text(PREFIX + Encode(key))
    requires forall j | n < j < |records| :: !Amends(records[j], records[p].recordId, key)
    requires "corrected_value" in records[n].payload.value
    ensures view[p].payload.value[key] == records[n].payload.value["corrected_value"]
  {
    EveryKeyHasAPath(key);
    assert ExplainsRecord(records, view[p], p);
    assert LastBefore(records, |records|, records[p].recordId, key, n);
  }

  // ----- What the view says -----

  /** Each edit records what the one before it left, the first one the original value. */
  predicate Chained(original: Json, edits: seq<Edit>) {
    forall i | 0 <= i < |edits| :: edits[i].recorded == if i == 0 then original else edits[i - 1].corrected
  }

  lemma LinkedIsChained(original: Json, edits: seq<Edit>)
    requires Linked(original, edits)
    ensures Chained(original, edits)
  {
    forall i | 0 <= i < |edits| ensures edits[i].recorded == if i == 0 then original else edits[i - 1].corrected {
      LinkedAt(original, edits, i);
    }
  }

  /** The amendments of one field form a chain from its original value to the value that the view shows. */
  lemma AmendmentsFormAChain(view: Record, record: Record, edits: seq<Edit>, key: string)
    requires Amendable(record, key) && FieldLinked(record, edits, key) && ShowsEdits(view, record, edits)
    ensures var chain := On(edits, record.recordId, key);
      && Chained(record.payload.value[key], chain)
      && view.payload.value[key] == ValueAfter(record.payload.value[key], chain)
  {
    LinkedIsChained(record.payload.value[key], On(edits, record.recordId, key));
  }

  /** A field differs from the record only if an applied amendment names it; it then holds the last corrected value. */
  lemma OnlyAmendedFieldsDiffer(view: Record, record: Record, edits: seq<Edit>, key: string)
    requires ShowsEdits(view, record, edits) && record.payload.Some? && key in record.payload.value
    ensures view.payload.value[key] != record.payload.value[key] ==> On(edits, record.recordId, key) != []
    ensures record.recordId != "" && On(edits, record.recordId, key) != [] ==>
      var of := On(edits, record.recordId, key);
      view.payload.value[key] == of[|of| - 1].corrected && of[|of| - 1] in edits
  {
    OnIsWithin(edits, record.recordId, key);
  }

  lemma {:induction false} OnIsWithin(edits: seq<Edit>, target: string, key: string)
    ensures forall e :: e in On(edits, target, key) <==> e in edits && e.target == target && e.key == key
    decreases |edits|
  {
    if edits != [] {
      OnIsWithin(edits[..|edits| - 1], target, key);
      assert edits == edits[..|edits| - 1] + [edits[|edits| - 1]];
    }
  }

  /** Reordered records in which the amendments of each single field keep their order. */
  ghost predicate Reordered(a: seq<Record>, b: seq<Record>) {
    && multiset(a) == multiset(b)
    && forall target, key :: On(Edits(a), target, key) == On(Edits(b), target, key)
  }

  lemma ReorderedResolvable(a: seq<Record>, b: seq<Record>)
    requires Reordered(a, b) && Resolvable(a)
    ensures Resolvable(b)
  {
    UniqueIdsOfMultiset(a, b);
    SameElements(a, b);
    forall j | 0 <= j < |b| && IsAmendment(b[j]) ensures Sound(b, b[j]) {
      assert b[j] in b && b[j] in a;
      var i :| 0 <= i < |a| && a[i] == b[j];
      var edit := EditOf(a[i]).value;
      var p :| 0 <= p < |a| && HasField(a[p], edit.target, edit.key);
      assert a[p] in a && a[p] in b;
      var q :| 0 <= q < |b| && b[q] == a[p];
    }
    forall q, key | 0 <= q < |b| ensures FieldLinked(b[q], Edits(b), key) {
      assert b[q] in b && b[q] in a;
      var p :| 0 <= p < |a| && a[p] == b[q];
      assert FieldLinked(a[p], Edits(a), key);
    }
  }

  lemma SameElements(a: seq<Record>, b: seq<Record>)
    requires multiset(a) == multiset(b)
    ensures forall r :: r in a <==> r in b
  {
    forall r ensures r in a <==> r in b { assert r in multiset(a) <==> r in multiset(b); }
  }

  lemma Twice(records: seq<Record>, i: nat, j: nat)
    requires i < j < |records| && records[i] == records[j]
    ensures multiset(records)[records[i]] >= 2
  {
    assert records == records[..j] + records[j..];
    assert records[i] in records[..j] && records[j] in records[j..];
  }

  lemma {:induction false} Once(records: seq<Record>, r: Record)
    requires multiset(records)[r] >= 2
    ensures exists i, j :: 0 <= i < j < |records| && records[i] == r && records[j] == r
    decreases |records|
  {
    var n := |records| - 1;
    assert records == records[..n] + [records[n]];
    if records[n] == r {
      assert multiset(records[..n])[r] >= 1;
      var i :| 0 <= i < n && records[..n][i] == r;
      assert records[i] == r && records[n] == r;
    } else {
      Once(records[..n], r);
      var i, j :| 0 <= i < j < n && records[..n][i] == r && records[..n][j] == r;
      assert records[i] == r && records[j] == r;
    }
  }

  lemma UniqueIdsOfMultiset(a: seq<Record>, b: seq<Record>)
    requires multiset(a) == multiset(b) && UniqueIds(a)
    ensures UniqueIds(b)
  {
    SameElements(a, b);
    forall i, j | 0 <= i < j < |b| && b[i].recordId != "" ensures b[i].recordId != b[j].recordId {
      assert b[i] in b && b[i] in a && b[j] in b && b[j] in a;
      var p :| 0 <= p < |a| && a[p] == b[i];
      var q :| 0 <= q < |a| && a[q] == b[j];
      if p == q {
        Twice(b, i, j);
        Once(a, b[i]);
      }
    }
  }

  /**
    Reordering that keeps the order of the amendments of each field changes nothing: the one view exists exactly
    when the other does, and a record that both show has the same resolved payload in both.
   */
  lemma OrderBetweenFieldsIsIrrelevant(a: seq<Record>, b: seq<Record>, viewA: seq<Record>, viewB: seq<Record>)
    requires Reordered(a, b)
    ensures Resolvable(a) <==> Resolvable(b)
    ensures ViewShows(viewA, a, Edits(a)) && ViewShows(viewB, b, Edits(b)) ==>
      forall i, j | 0 <= i < |a| && 0 <= j < |b| && a[i] == b[j] :: viewA[i] == viewB[j]
  {
    if Resolvable(a) { ReorderedResolvable(a, b); }
    if Resolvable(b) { ReorderedResolvable(b, a); }
    if ViewShows(viewA, a, Edits(a)) && ViewShows(viewB, b, Edits(b)) {
      forall i, j | 0 <= i < |a| && 0 <= j < |b| && a[i] == b[j] ensures viewA[i] == viewB[j] {
        assert ShowsEdits(viewA[i], a[i], Edits(a)) && ShowsEdits(viewB[j], b[j], Edits(b));
        if a[i].payload.Some? { assert viewA[i].payload.value == viewB[j].payload.value; }
      }
    }
  }
}
