/**
 * The request-building helpers of the Telegram client class: the inline
 * keyboard normaliser applied to every `reply_markup`, the assembly of JSON
 * request payloads, and the multipart/form-data body used to upload files
 * (RFC 7578 section 4, with the delimiter lines of RFC 2046 section 5.1.1).
 * The HTTP calls themselves are outside the model.
 */
module TelegramBot {
  import opened Wrappers
  import opened PyDict
  import opened Json
  import opened Text
  import Utf8

  // =====================================================================
  // _fix_reply_markup
  // =====================================================================

  /** One button: `callbackData`, or failing that `callback`, becomes
      `callback_data`. `x or y` only evaluates `y` when `x` is falsy, so
      `callback` is popped only when `callbackData` is absent or falsy. */
  function FixButton(btn: ODict<Json>): ODict<Json> {
    var alias := Get(btn, "callbackData");
    var rest := Remove(btn, "callbackData");
    if alias.Some? && Truthy(alias.value) then
      Set(rest, "callback_data", alias.value)
    else
      var fallback := Get(rest, "callback");
      var rest' := Remove(rest, "callback");
      if fallback.Some? && fallback.value != JNull then Set(rest', "callback_data", fallback.value)
      else rest'
  }

  /** A row the loops can walk: every button is a dict. */
  predicate IsButtonRow(row: seq<Json>) {
    forall j :: 0 <= j < |row| ==> row[j].JObj?
  }

  /** A keyboard the loops can walk: a list of rows of dicts. */
  predicate IsKeyboard(rows: seq<Json>) {
    forall i :: 0 <= i < |rows| ==> rows[i].JList? && IsButtonRow(rows[i].items)
  }

  function FixedRow(row: seq<Json>): (r: seq<Json>)
    requires IsButtonRow(row)
  {
    seq(|row|, j requires 0 <= j < |row| => JObj(FixButton(row[j].fields)))
  }

  function FixedRows(rows: seq<Json>): (r: seq<Json>)
    requires IsKeyboard(rows)
  {
    seq(|rows|, i requires 0 <= i < |rows| => JList(FixedRow(rows[i].items)))
  }

  /** What `_fix_reply_markup(reply_markup)` returns; `Err` where Python
      raises (`in` on a number or `True`, `dict()` of a non-dict), and for
      any keyboard that is not a list of lists of dicts. */
  function FixedMarkup(rm: Json): Result<Json> {
    if !Truthy(rm) then Ok(rm)
    else match rm
      case JObj(fields) =>
        if !HasKey(fields, "inline_keyboard") then Ok(rm)
        else
          var kb := Get(fields, "inline_keyboard").value;
          if kb.JList? && IsKeyboard(kb.items) then
            Ok(JObj(Set(fields, "inline_keyboard", JList(FixedRows(kb.items)))))
          else Err("inline_keyboard is not a list of lists of dicts")
      case JList(items) =>
        if JStr("inline_keyboard") in items then Err("dict() of a list of strings") else Ok(rm)
      case JStr(s) =>
        if Contains(s, "inline_keyboard") then Err("dict() of a string") else Ok(rm)
      case _ => Err("argument of this type is not iterable")
  }

  /** A button that uses neither alias goes through untouched. */
  lemma FixButtonWithoutAliases(btn: ODict<Json>)
    requires !HasKey(btn, "callbackData") && !HasKey(btn, "callback")
    ensures FixButton(btn) == btn
  {
    RemoveAbsent(btn, "callbackData");
    RemoveAbsent(btn, "callback");
  }

  /** `TelegramBot._fix_reply_markup`, with its two nested loops. */
  method FixReplyMarkup(replyMarkup: Json) returns (r: Result<Json>)
    ensures r == FixedMarkup(replyMarkup)
  {
    if !Truthy(replyMarkup) {
      return Ok(replyMarkup);
    }
    match replyMarkup {
      case JObj(fields) =>
        if !HasKey(fields, "inline_keyboard") {
          return Ok(replyMarkup);
        }
        var rm := fields;
        var kb := Get(rm, "inline_keyboard").value;
        if !kb.JList? {
          return Err("inline_keyboard is not a list of lists of dicts");
        }
        var rows := kb.items;
        var fixedKb: seq<Json> := [];
        var i := 0;
        while i < |rows|
          invariant 0 <= i <= |rows|
          invariant IsKeyboard(rows[..i])
          invariant fixedKb == FixedRows(rows[..i])
        {
          if !rows[i].JList? {
            assert !IsKeyboard(rows);
            return Err("inline_keyboard is not a list of lists of dicts");
          }
          var row := rows[i].items;
          var fixedRow: seq<Json> := [];
          var j := 0;
          while j < |row|
            invariant 0 <= j <= |row|
            invariant IsButtonRow(row[..j])
            invariant fixedRow == FixedRow(row[..j])
          {
            if !row[j].JObj? {
              assert !IsButtonRow(row);
              assert !IsKeyboard(rows);
              return Err("inline_keyboard is not a list of lists of dicts");
            }
            var btnCopy := row[j].fields;
            fixedRow := fixedRow + [JObj(FixButton(btnCopy))];
            assert row[..j + 1] == row[..j] + [row[j]];
            j := j + 1;
          }
          assert row[..j] == row;
          fixedKb := fixedKb + [JList(fixedRow)];
          assert rows[..i + 1] == rows[..i] + [rows[i]];
          i := i + 1;
        }
        assert rows[..i] == rows;
        rm := Set(rm, "inline_keyboard", JList(fixedKb));
        return Ok(JObj(rm));
      case JList(items) =>
        if JStr("inline_keyboard") in items {
          return Err("dict() of a list of strings");
        }
        return Ok(replyMarkup);
      case JStr(s) =>
        if Contains(s, "inline_keyboard") {
          return Err("dict() of a string");
        }
        return Ok(replyMarkup);
      case _ =>
        return Err("argument of this type is not iterable");
    }
  }

  /** A markup without a keyboard, or a falsy one, is returned as it is. */
  lemma FixLeavesOtherMarkupsAlone(rm: Json)
    requires !Truthy(rm) || (rm.JObj? && !HasKey(rm.fields, "inline_keyboard"))
    ensures FixedMarkup(rm) == Ok(rm)
  {
  }

  /** Normalising keeps the keyboard's shape: as many rows, as many buttons
      in each row, each button the fixed copy of the button in its place;
      the other top-level keys keep their values and the key order is kept. */
  lemma FixKeepsShape(fields: ODict<Json>)
    requires HasKey(fields, "inline_keyboard")
    requires FixedMarkup(JObj(fields)).Ok?
    ensures var kb := Get(fields, "inline_keyboard").value;
      var out := FixedMarkup(JObj(fields)).value;
      && kb.JList? && out.JObj?
      && Keys(out.fields) == Keys(fields)
      && (forall k :: k != "inline_keyboard" ==> Get(out.fields, k) == Get(fields, k))
      && Get(out.fields, "inline_keyboard").Some?
      && var kb' := Get(out.fields, "inline_keyboard").value;
      && kb'.JList? && |kb'.items| == |kb.items|
      && forall i :: 0 <= i < |kb.items| ==>
           kb.items[i].JList? && kb'.items[i].JList?
           && |kb'.items[i].items| == |kb.items[i].items|
           && forall j :: 0 <= j < |kb.items[i].items| ==>
                kb.items[i].items[j].JObj?
                && kb'.items[i].items[j] == JObj(FixButton(kb.items[i].items[j].fields))
  {
    var kb := Get(fields, "inline_keyboard").value;
    assert Truthy(JObj(fields));
    var fixed := JList(FixedRows(kb.items));
    KeysSet(fields, "inline_keyboard", fixed);
    forall k ensures Get(Set(fields, "inline_keyboard", fixed), k) == if k == "inline_keyboard" then Some(fixed) else Get(fields, k) {
      GetSet(fields, "inline_keyboard", fixed, k);
    }
  }

  /** The per-button alias rules. */
  lemma FixButtonRenamesAliases(btn: ODict<Json>)
    ensures var out := FixButton(btn);
      var alias := Get(btn, "callbackData");
      var aliasUsed := alias.Some? && Truthy(alias.value);
      var callback := Get(btn, "callback");
      && !HasKey(out, "callbackData")
      && (HasKey(out, "callback") <==> aliasUsed && callback.Some?)
      && (aliasUsed ==> Get(out, "callback_data") == alias)
      && (!aliasUsed && callback.Some? && callback.value != JNull ==> Get(out, "callback_data") == callback)
      && (!aliasUsed && (callback.None? || callback.value == JNull) ==>
            Get(out, "callback_data") == Get(btn, "callback_data"))
      && forall k :: k != "callbackData" && k != "callback" && k != "callback_data" ==>
           Get(out, k) == Get(btn, k)
  {
    var alias := Get(btn, "callbackData");
    var rest := Remove(btn, "callbackData");
    var rest' := Remove(rest, "callback");
    var out := FixButton(btn);
    forall k ensures Get(rest, k) == (if k == "callbackData" then None else Get(btn, k))
      && Get(rest', k) == (if k == "callback" || k == "callbackData" then None else Get(btn, k))
    {
      RemoveFacts(btn, "callbackData", k);
      RemoveFacts(rest, "callback", k);
    }
    if alias.Some? && Truthy(alias.value) {
      assert out == Set(rest, "callback_data", alias.value);
      forall k ensures Get(out, k) == (if k == "callback_data" then alias else Get(rest, k)) {
        GetSet(rest, "callback_data", alias.value, k);
      }
    } else {
      var fallback := Get(rest, "callback");
      if fallback.Some? && fallback.value != JNull {
        assert out == Set(rest', "callback_data", fallback.value);
        forall k ensures Get(out, k) == (if k == "callback_data" then fallback else Get(rest', k)) {
          GetSet(rest', "callback_data", fallback.value, k);
        }
      } else {
        assert out == rest';
      }
    }
  }

  // =====================================================================
  // JSON payloads: send_message, edit_message_text, the non-bytes path of
  // _send_file
  // =====================================================================

  /** Python's `if options:` on an optional dict. */
  predicate Given(options: Option<ODict<Json>>) {
    options.Some? && options.value != []
  }

  /** The value the markup normaliser gives the `reply_markup` option. */
  function FixedOption(opts: ODict<Json>): Result<Json>
    requires HasKey(opts, "reply_markup")
  {
    FixedMarkup(Get(opts, "reply_markup").value)
  }

  /** The payload `send_message`, `edit_message_text` and `_send_file` post:
      the base fields, then, when options are given, `reply_markup`
      normalised and written into the payload, then every other option
      assigned with `dict.update`. */
  function AssembledPayload(base: ODict<Json>, options: Option<ODict<Json>>): Result<ODict<Json>> {
    if !Given(options) then Ok(base)
    else
      var opts := options.value;
      if HasKey(opts, "reply_markup") then
        match FixedOption(opts)
        case Err(e) => Err(e)
        case Ok(m) => Ok(Update(Set(base, "reply_markup", m), Remove(opts, "reply_markup")))
      else Ok(Update(base, opts))
  }

  /** Where a payload key takes its value from: the normalised markup, an
      option, or the base field. */
  function OptionValue(base: ODict<Json>, opts: ODict<Json>, k: string): Option<Json> {
    if k == "reply_markup" && HasKey(opts, k) then
      (var m := FixedOption(opts); if m.Ok? then Some(m.value) else None)
    else if HasKey(opts, k) then Get(opts, k)
    else Get(base, k)
  }

  /** The payload assembly fails exactly when a given `reply_markup` cannot
      be normalised; without options the base payload goes out unchanged. */
  lemma PayloadFails(base: ODict<Json>, options: Option<ODict<Json>>)
    ensures !Given(options) ==> AssembledPayload(base, options) == Ok(base)
    ensures AssembledPayload(base, options).Err? <==>
      Given(options) && HasKey(options.value, "reply_markup") && FixedOption(options.value).Err?
  {
  }

  /** The keys of the assembled payload: the base keys first, in their
      order, then the new option keys; no key twice. */
  lemma PayloadKeys(base: ODict<Json>, options: Option<ODict<Json>>)
    requires DistinctKeys(base)
    requires AssembledPayload(base, options).Ok?
    ensures DistinctKeys(AssembledPayload(base, options).value)
    ensures |base| <= |AssembledPayload(base, options).value|
    ensures Keys(AssembledPayload(base, options).value)[..|base|] == Keys(base)
    ensures forall k :: HasKey(AssembledPayload(base, options).value, k) <==>
      HasKey(base, k) || (Given(options) && HasKey(options.value, k))
  {
    if Given(options) {
      var opts := options.value;
      if HasKey(opts, "reply_markup") {
        var m := FixedOption(opts).value;
        var b := Set(base, "reply_markup", m);
        var o := Remove(opts, "reply_markup");
        assert AssembledPayload(base, options).value == Update(b, o);
        KeysSet(base, "reply_markup", m);
        DistinctSet(base, "reply_markup", m);
        assert Keys(b)[..|base|] == Keys(base);
        KeysUpdate(b, o);
        DistinctUpdate(b, o);
        forall k ensures HasKey(b, k) || HasKey(o, k) <==> HasKey(base, k) || HasKey(opts, k) {
          HasKeySet(base, "reply_markup", m, k);
          RemoveFacts(opts, "reply_markup", k);
        }
      } else {
        KeysUpdate(base, opts);
        DistinctUpdate(base, opts);
      }
    }
  }

  /** Every key of the assembled payload holds the normalised markup, the
      option of that name, or else the base field. */
  lemma PayloadValues(base: ODict<Json>, options: Option<ODict<Json>>, k: string)
    requires options.Some? ==> DistinctKeys(options.value)
    requires AssembledPayload(base, options).Ok? && Given(options)
    ensures Get(AssembledPayload(base, options).value, k) == OptionValue(base, options.value, k)
  {
    var opts := options.value;
    if HasKey(opts, "reply_markup") {
      var m := FixedOption(opts).value;
      var b := Set(base, "reply_markup", m);
      var o := Remove(opts, "reply_markup");
      DistinctRemove(opts, "reply_markup");
      GetUpdate(b, o, k);
      GetSet(base, "reply_markup", m, k);
      RemoveFacts(opts, "reply_markup", k);
    } else {
      GetUpdate(base, opts, k);
    }
  }

  /** The assembly step shared by `send_message`, `edit_message_text` and
      the non-upload path of `_send_file`. */
  method AssemblePayload(base: ODict<Json>, options: Option<ODict<Json>>) returns (r: Result<ODict<Json>>)
    ensures r == AssembledPayload(base, options)
  {
    var payload := base;
    if Given(options) {
      var opts := options.value;
      if HasKey(opts, "reply_markup") {
        var markup := FixReplyMarkup(Get(opts, "reply_markup").value);
        if markup.Err? {
          return Err(markup.reason);
        }
        opts := Remove(opts, "reply_markup");
        payload := Set(payload, "reply_markup", markup.value);
      }
      payload := Update(payload, opts);
    }
    return Ok(payload);
  }

  /** `send_message(chat_id, text, options)`: the `sendMessage` payload. */
  function SendMessagePayload(chatId: Json, text: string, options: Option<ODict<Json>>): Result<ODict<Json>> {
    AssembledPayload([("chat_id", chatId), ("text", JStr(text))], options)
  }

  /** `edit_message_text(text, options)`: the `editMessageText` payload. */
  function EditMessageTextPayload(text: string, options: Option<ODict<Json>>): Result<ODict<Json>> {
    AssembledPayload([("text", JStr(text))], options)
  }

  /** A message payload starts with `chat_id` and `text`; the text given
      survives unless an option named `text` overrides it. */
  lemma SendMessageShape(chatId: Json, text: string, options: Option<ODict<Json>>)
    requires options.Some? ==> DistinctKeys(options.value)
    requires SendMessagePayload(chatId, text, options).Ok?
    ensures var p := SendMessagePayload(chatId, text, options).value;
      |p| >= 2 && Keys(p)[..2] == ["chat_id", "text"] && DistinctKeys(p)
      && (!(Given(options) && HasKey(options.value, "text")) ==> Get(p, "text") == Some(JStr(text)))
  {
    var base := [("chat_id", chatId), ("text", JStr(text))];
    PayloadKeys(base, options);
    assert base[1..] == [("text", JStr(text))];
    assert "chat_id" != "text" && "text" != "reply_markup" && Get(base, "text") == Some(JStr(text));
    if Given(options) {
      PayloadValues(base, options, "text");
    } else {
      assert SendMessagePayload(chatId, text, options).value == base;
    }
  }

  /** An edit payload starts with `text`, which survives unless an option
      named `text` overrides it; the ids of the message come in as
      options and follow it. Building it fails exactly when a given
      `reply_markup` cannot be normalised. */
  lemma EditMessageTextShape(text: string, options: Option<ODict<Json>>)
    requires options.Some? ==> DistinctKeys(options.value)
    ensures EditMessageTextPayload(text, options).Err? <==>
      Given(options) && HasKey(options.value, "reply_markup") && FixedOption(options.value).Err?
    ensures EditMessageTextPayload(text, options).Ok? ==>
      var p := EditMessageTextPayload(text, options).value;
      |p| >= 1 && Keys(p)[0] == "text" && DistinctKeys(p)
      && (forall k :: HasKey(p, k) <==> k == "text" || (Given(options) && HasKey(options.value, k)))
      && (!(Given(options) && HasKey(options.value, "text")) ==> Get(p, "text") == Some(JStr(text)))
  {
    var base := [("text", JStr(text))];
    PayloadFails(base, options);
    if EditMessageTextPayload(text, options).Ok? {
      PayloadKeys(base, options);
      assert "text" != "reply_markup" && Get(base, "text") == Some(JStr(text));
      forall k ensures HasKey(base, k) <==> k == "text" {
        assert base[1..] == [];
      }
      if Given(options) {
        PayloadValues(base, options, "text");
      }
    }
  }

  // =====================================================================
  // Form fields of the multipart path of _send_file
  // =====================================================================

  /** The text a form field carries, by how it is produced: `Text` where the
      model computes `str(v)` itself, `Dumped` for `json.dumps(v)` of a dict,
      `Repr` for `str(v)` of a list or dict (Python's repr). */
  datatype FormValue = Text(s: string) | Dumped(v: Json) | Repr(v: Json)

  /** `str(v)`. */
  function StrValue(v: Json): FormValue {
    match v
    case JNull => Text("None")
    case JBool(b) => Text(if b then "True" else "False")
    case JInt(i) => Text(IntToString(i))
    case JStr(s) => Text(s)
    case JList(_) => Repr(v)
    case JObj(_) => Repr(v)
  }

  /** `json.dumps(v) if isinstance(v, dict) else str(v)`. */
  function FieldValue(v: Json): FormValue {
    if v.JObj? then Dumped(v) else StrValue(v)
  }

  /** Options that name the upload itself rather than a form field. */
  predicate IsFileOption(k: string) {
    k == "filename" || k == "content_type"
  }

  /** The options turned into form fields, in their order. */
  function FormOptions(opts: ODict<Json>): (fs: ODict<FormValue>)
    decreases |opts|
  {
    if opts == [] then []
    else
      var rest := FormOptions(opts[..|opts| - 1]);
      var (k, v) := opts[|opts| - 1];
      if IsFileOption(k) then rest else rest + [(k, FieldValue(v))]
  }

  lemma {:induction false} FormOptionsFacts(opts: ODict<Json>, q: string)
    ensures HasKey(FormOptions(opts), q) <==> HasKey(opts, q) && !IsFileOption(q)
    decreases |opts|
  {
    if opts != [] {
      var init := opts[..|opts| - 1];
      FormOptionsFacts(init, q);
      assert opts == init + [opts[|opts| - 1]];
      HasKeyAppend(init, [opts[|opts| - 1]], q);
      var (k, v) := opts[|opts| - 1];
      if !IsFileOption(k) {
        HasKeyAppend(FormOptions(init), [(k, FieldValue(v))], q);
      }
    }
  }

  lemma {:induction false} FormOptionsGet(opts: ODict<Json>, q: string)
    requires DistinctKeys(opts)
    ensures DistinctKeys(FormOptions(opts))
    ensures !IsFileOption(q) && HasKey(opts, q) ==> Get(FormOptions(opts), q) == Some(FieldValue(Get(opts, q).value))
    decreases |opts|
  {
    if opts != [] {
      var init := opts[..|opts| - 1];
      var (k, v) := opts[|opts| - 1];
      assert opts == init + [(k, v)];
      DistinctSnoc(init, k, v);
      FormOptionsGet(init, q);
      HasKeyAppend(init, [(k, v)], q);
      GetAppend(init, [(k, v)], q);
      if !IsFileOption(k) {
        FormOptionsFacts(init, k);
        DistinctAppendNew(FormOptions(init), k, FieldValue(v));
        GetAppend(FormOptions(init), [(k, FieldValue(v))], q);
        FormOptionsFacts(init, q);
      }
    }
  }

  /** The fields `_send_file` hands to the multipart builder: `chat_id`
      first, then every option except `filename` and `content_type`. */
  function FormFieldsOf(chatId: Json, opts: ODict<Json>): ODict<FormValue> {
    Update([("chat_id", StrValue(chatId))], FormOptions(opts))
  }

  /** The loop of `_send_file` over `options or {}`. */
  method FormFields(chatId: Json, options: Option<ODict<Json>>) returns (fields: ODict<FormValue>)
    requires options.Some? ==> DistinctKeys(options.value)
    ensures fields == FormFieldsOf(chatId, options.GetOr([]))
    ensures |fields| >= 1 && Keys(fields)[0] == "chat_id"
    ensures !HasKey(fields, "filename") && !HasKey(fields, "content_type")
    ensures forall k :: HasKey(fields, k) <==> k == "chat_id" || (HasKey(options.GetOr([]), k) && !IsFileOption(k))
    ensures forall k :: !IsFileOption(k) && HasKey(options.GetOr([]), k) ==>
      Get(fields, k) == Some(FieldValue(Get(options.GetOr([]), k).value))
    ensures !HasKey(options.GetOr([]), "chat_id") ==> Get(fields, "chat_id") == Some(StrValue(chatId))
  {
    var base := [("chat_id", StrValue(chatId))];
    fields := base;
    var opts := options.GetOr([]);
    var i := 0;
    while i < |opts|
      invariant 0 <= i <= |opts|
      invariant fields == Update(base, FormOptions(opts[..i]))
    {
      var (k, v) := opts[i];
      assert opts[..i + 1][..i] == opts[..i] && opts[..i + 1][i] == (k, v);
      if !IsFileOption(k) {
        UpdateSnoc(base, FormOptions(opts[..i]), k, FieldValue(v));
        fields := Set(fields, k, FieldValue(v));
      }
      i := i + 1;
    }
    assert opts[..i] == opts;
    var fo := FormOptions(opts);
    KeysUpdate(base, fo);
    forall k ensures (HasKey(fields, k) <==> k == "chat_id" || (HasKey(opts, k) && !IsFileOption(k)))
      && (!IsFileOption(k) && HasKey(opts, k) ==> Get(fields, k) == Some(FieldValue(Get(opts, k).value)))
      && (!HasKey(opts, "chat_id") ==> Get(fields, "chat_id") == Some(StrValue(chatId)))
    {
      FormOptionsFacts(opts, k);
      FormOptionsFacts(opts, "chat_id");
      FormOptionsGet(opts, k);
      GetUpdate(base, fo, k);
      GetUpdate(base, fo, "chat_id");
    }
  }

  /** `str()` and `json.dumps` applied to the recorded form values; the two
      library renderings are parameters. */
  function Render(v: FormValue, dumps: Json -> string, repr: Json -> string): string {
    match v
    case Text(s) => s
    case Dumped(j) => dumps(j)
    case Repr(j) => repr(j)
  }

  function RenderAll(fields: ODict<FormValue>, dumps: Json -> string, repr: Json -> string): (r: ODict<string>)
    ensures Keys(r) == Keys(fields)
  {
    if fields == [] then []
    else [(fields[0].0, Render(fields[0].1, dumps, repr))] + RenderAll(fields[1..], dumps, repr)
  }

  // =====================================================================
  // _build_multipart
  // =====================================================================

  /** `"----BotBoundary" + secrets.token_hex(16)`; the random part is a parameter. */
  function Boundary(token: string): string {
    "----BotBoundary" + token
  }

  function DelimiterLine(boundary: string): string {
    "--" + boundary + "\r\n"
  }

  function CloseDelimiterLine(boundary: string): string {
    "--" + boundary + "--\r\n"
  }

  function FieldHeader(name: string): string {
    "Content-Disposition: form-data; name=\"" + name + "\"\r\n\r\n"
  }

  function FileDisposition(fieldName: string, filename: string): string {
    "Content-Disposition: form-data; name=\"" + fieldName + "\"; filename=\"" + filename + "\"\r\n"
  }

  function TypeLine(contentType: string): string {
    "Content-Type: " + contentType + "\r\n\r\n"
  }

  function FileHeader(fieldName: string, filename: string, contentType: string): string {
    FileDisposition(fieldName, filename) + TypeLine(contentType)
  }

  /** The text of the form-field parts, one per field, in insertion order. */
  function FieldsText(boundary: string, fields: ODict<string>): string
    decreases |fields|
  {
    if fields == [] then ""
    else
      var (name, value) := fields[|fields| - 1];
      FieldsText(boundary, fields[..|fields| - 1]) + DelimiterLine(boundary) + FieldHeader(name) + value + "\r\n"
  }

  /** The whole form-data body: the field parts, the file part, the close delimiter. */
  function MultipartBody(boundary: string, fields: ODict<string>, fileFieldName: string, filename: string,
                         fileBytes: seq<Utf8.byte>, contentType: string): seq<Utf8.byte>
  {
    MultipartBodyAfter(FieldsText(boundary, fields), boundary, fileFieldName, filename, fileBytes, contentType)
  }

  /** `b"".join(parts)`. */
  function Concat(parts: seq<seq<Utf8.byte>>): seq<Utf8.byte>
    decreases |parts|
  {
    if parts == [] then [] else Concat(parts[..|parts| - 1]) + parts[|parts| - 1]
  }

  lemma ConcatSnoc(parts: seq<seq<Utf8.byte>>, x: seq<Utf8.byte>)
    ensures Concat(parts + [x]) == Concat(parts) + x
  {
    assert (parts + [x])[..|parts|] == parts;
  }

  /** `parts.extend(more)` followed by the join equals the join followed by
      the join of `more`. */
  lemma {:induction false} ConcatAppend(parts: seq<seq<Utf8.byte>>, more: seq<seq<Utf8.byte>>)
    ensures Concat(parts + more) == Concat(parts) + Concat(more)
    decreases |more|
  {
    if more == [] {
      assert parts + more == parts;
    } else {
      var init := more[..|more| - 1];
      var last := more[|more| - 1];
      assert more == init + [last];
      assert parts + more == (parts + init) + [last];
      ConcatSnoc(parts + init, last);
      ConcatAppend(parts, init);
      ConcatSnoc(init, last);
    }
  }

  /** The bytes of the four pieces written for one form field. */
  function FieldPieces(boundary: string, name: string, value: string): seq<seq<Utf8.byte>> {
    [Utf8.Encode(DelimiterLine(boundary)), Utf8.Encode(FieldHeader(name)), Utf8.Encode(value), Utf8.Encode("\r\n")]
  }

  lemma Concat4(a: seq<Utf8.byte>, b: seq<Utf8.byte>, c: seq<Utf8.byte>, d: seq<Utf8.byte>)
    ensures Concat([a, b, c, d]) == a + b + c + d
  {
    assert [a, b, c, d] == [a, b, c] + [d];
    ConcatSnoc([a, b, c], d);
    assert [a, b, c] == [a, b] + [c];
    ConcatSnoc([a, b], c);
    assert [a, b] == [a] + [b];
    ConcatSnoc([a], b);
    assert [a] == [] + [a];
    ConcatSnoc([], a);
  }

  lemma FieldPiecesEncode(pre: string, boundary: string, name: string, value: string)
    ensures Utf8.Encode(pre) + Concat(FieldPieces(boundary, name, value))
         == Utf8.Encode(pre + DelimiterLine(boundary) + FieldHeader(name) + value + "\r\n")
  {
    FieldPiecesEncodeWith(pre, DelimiterLine(boundary), FieldHeader(name), value, "\r\n");
  }

  lemma FieldPiecesEncodeWith(pre: string, d: string, h: string, value: string, crlf: string)
    ensures Utf8.Encode(pre) + Concat([Utf8.Encode(d), Utf8.Encode(h), Utf8.Encode(value), Utf8.Encode(crlf)])
         == Utf8.Encode(pre + d + h + value + crlf)
  {
    var ep, ed, eh, ev, ec := Utf8.Encode(pre), Utf8.Encode(d), Utf8.Encode(h), Utf8.Encode(value), Utf8.Encode(crlf);
    Concat4(ed, eh, ev, ec);
    Utf8.Encode5(pre, d, h, value, crlf);
    Regroup5(ep, ed, eh, ev, ec);
  }

  lemma Regroup5(a: seq<Utf8.byte>, b: seq<Utf8.byte>, c: seq<Utf8.byte>, d: seq<Utf8.byte>, e: seq<Utf8.byte>)
    ensures a + (b + c + d + e) == a + b + c + d + e
  {
  }

  /** The bytes of the six pieces that close the body: the file part and
      the final delimiter. */
  function FilePieces(boundary: string, fileFieldName: string, filename: string,
                      fileBytes: seq<Utf8.byte>, contentType: string): seq<seq<Utf8.byte>>
  {
    [Utf8.Encode(DelimiterLine(boundary)), Utf8.Encode(FileDisposition(fileFieldName, filename)),
     Utf8.Encode(TypeLine(contentType)), fileBytes, Utf8.Encode("\r\n"), Utf8.Encode(CloseDelimiterLine(boundary))]
  }

  lemma Concat6(a: seq<Utf8.byte>, b: seq<Utf8.byte>, c: seq<Utf8.byte>, d: seq<Utf8.byte>,
                e: seq<Utf8.byte>, f: seq<Utf8.byte>)
    ensures Concat([a, b, c, d, e, f]) == a + b + c + d + e + f
  {
    assert [a, b, c, d, e, f] == [a, b, c, d, e] + [f];
    ConcatSnoc([a, b, c, d, e], f);
    assert [a, b, c, d, e] == [a, b, c, d] + [e];
    ConcatSnoc([a, b, c, d], e);
    Concat4(a, b, c, d);
  }

  lemma FilePiecesEncode(pre: string, boundary: string, fileFieldName: string, filename: string,
                         fileBytes: seq<Utf8.byte>, contentType: string)
    ensures Utf8.Encode(pre) + Concat(FilePieces(boundary, fileFieldName, filename, fileBytes, contentType))
         == MultipartBodyAfter(pre, boundary, fileFieldName, filename, fileBytes, contentType)
  {
    FilePiecesEncodeWith(pre, DelimiterLine(boundary), FileDisposition(fileFieldName, filename), TypeLine(contentType),
      fileBytes, "\r\n", CloseDelimiterLine(boundary));
  }

  lemma FilePiecesEncodeWith(pre: string, d: string, fd: string, tl: string, fileBytes: seq<Utf8.byte>, crlf: string, cl: string)
    ensures Utf8.Encode(pre) + Concat([Utf8.Encode(d), Utf8.Encode(fd), Utf8.Encode(tl), fileBytes, Utf8.Encode(crlf), Utf8.Encode(cl)])
         == Utf8.Encode(pre + d + (fd + tl)) + fileBytes + Utf8.Encode(crlf + cl)
  {
    var E := Utf8.Encode;
    Concat6(E(d), E(fd), E(tl), fileBytes, E(crlf), E(cl));
    Utf8.EncodeAppend(pre, d);
    Utf8.EncodeAppend(pre + d, fd + tl);
    Utf8.EncodeAppend(fd, tl);
    Utf8.EncodeAppend(crlf, cl);
    Regroup(E(pre), E(d), E(fd), E(tl), fileBytes, E(crlf), E(cl));
  }

  lemma Regroup(a: seq<Utf8.byte>, b: seq<Utf8.byte>, c: seq<Utf8.byte>, d: seq<Utf8.byte>,
                e: seq<Utf8.byte>, f: seq<Utf8.byte>, g: seq<Utf8.byte>)
    ensures a + (b + c + d + e + f + g) == (a + b + (c + d)) + e + (f + g)
  {
  }

  function MultipartBodyAfter(pre: string, boundary: string, fileFieldName: string, filename: string,
                              fileBytes: seq<Utf8.byte>, contentType: string): seq<Utf8.byte>
  {
    Utf8.Encode(pre + DelimiterLine(boundary) + FileHeader(fileFieldName, filename, contentType))
      + fileBytes + Utf8.Encode("\r\n" + CloseDelimiterLine(boundary))
  }

  /** `TelegramBot._build_multipart`: the body and the Content-Type header. */
  method BuildMultipart(fields: ODict<string>, fileFieldName: string, filename: string,
                        fileBytes: seq<Utf8.byte>, contentType: string, token: string)
    returns (body: seq<Utf8.byte>, contentTypeHeader: string)
    ensures body == MultipartBody(Boundary(token), fields, fileFieldName, filename, fileBytes, contentType)
    ensures contentTypeHeader == "multipart/form-data; boundary=" + Boundary(token)
  {
    var boundary := Boundary(token);
    var parts: seq<seq<Utf8.byte>> := [];
    var i := 0;
    while i < |fields|
      invariant 0 <= i <= |fields|
      invariant Concat(parts) == Utf8.Encode(FieldsText(boundary, fields[..i]))
    {
      var (name, value) := fields[i];
      assert fields[..i + 1][..i] == fields[..i] && fields[..i + 1][i] == (name, value);
      ConcatAppend(parts, FieldPieces(boundary, name, value));
      FieldPiecesEncode(FieldsText(boundary, fields[..i]), boundary, name, value);
      parts := parts + FieldPieces(boundary, name, value);
      i := i + 1;
    }
    assert fields[..i] == fields;
    ConcatAppend(parts, FilePieces(boundary, fileFieldName, filename, fileBytes, contentType));
    FilePiecesEncode(FieldsText(boundary, fields), boundary, fileFieldName, filename, fileBytes, contentType);
    parts := parts + FilePieces(boundary, fileFieldName, filename, fileBytes, contentType);
    body := Concat(parts);
    contentTypeHeader := "multipart/form-data; boundary=" + boundary;
  }

  lemma PrefixKept(t: string, d: string, rest: string)
    requires t == [] || StartsWith(t, d)
    ensures StartsWith(t + d + rest, d)
  {
    if t == [] {
      assert t + d + rest == d + rest;
    } else {
      assert (t + d + rest)[..|d|] == t[..|d|];
    }
  }

  lemma {:induction false} FieldsTextStarts(boundary: string, fields: ODict<string>)
    requires fields != []
    ensures StartsWith(FieldsText(boundary, fields), DelimiterLine(boundary))
    decreases |fields|
  {
    var init := fields[..|fields| - 1];
    var (name, value) := fields[|fields| - 1];
    var d := DelimiterLine(boundary);
    var rest := FieldHeader(name) + value + "\r\n";
    var t := FieldsText(boundary, init);
    assert FieldsText(boundary, fields) == t + d + rest;
    if init != [] {
      FieldsTextStarts(boundary, init);
    }
    PrefixKept(t, d, rest);
  }

  /** The field parts and the file header always open with a delimiter line. */
  lemma HeadStartsWithDelimiter(boundary: string, fields: ODict<string>, fh: string)
    ensures var d := DelimiterLine(boundary);
      exists rest :: FieldsText(boundary, fields) + d + fh == d + rest
  {
    var d := DelimiterLine(boundary);
    var pre := FieldsText(boundary, fields);
    if fields == [] {
      assert pre + d + fh == d + fh;
    } else {
      FieldsTextStarts(boundary, fields);
      assert pre + d + fh == d + (pre[|d|..] + d + fh);
    }
  }

  lemma FrameBytes(a: seq<Utf8.byte>, r: seq<Utf8.byte>, f: seq<Utf8.byte>, c: seq<Utf8.byte>, e: seq<Utf8.byte>)
    ensures |a| <= |(a + r) + f + (c + e)| && ((a + r) + f + (c + e))[..|a|] == a
    ensures |e| <= |(a + r) + f + (c + e)| && ((a + r) + f + (c + e))[|(a + r) + f + (c + e)| - |e|..] == e
  {
    var body := (a + r) + f + (c + e);
    assert body == a + (r + f + c + e);
    assert body == (a + r + f + c) + e;
  }

  lemma FramingWith(d: string, rest: string, fileBytes: seq<Utf8.byte>, crlf: string, cl: string)
    ensures var body := Utf8.Encode(d + rest) + fileBytes + Utf8.Encode(crlf + cl);
      var open, close := Utf8.Encode(d), Utf8.Encode(cl);
      |open| <= |body| && body[..|open|] == open
      && |close| <= |body| && body[|body| - |close|..] == close
  {
    Utf8.EncodeAppend(d, rest);
    Utf8.EncodeAppend(crlf, cl);
    FrameBytes(Utf8.Encode(d), Utf8.Encode(rest), fileBytes, Utf8.Encode(crlf), Utf8.Encode(cl));
  }

  /** Every body starts with a delimiter line and ends with the closing
      delimiter, whatever the fields. */
  lemma MultipartFraming(boundary: string, fields: ODict<string>, fileFieldName: string, filename: string,
                         fileBytes: seq<Utf8.byte>, contentType: string)
    ensures var body := MultipartBody(boundary, fields, fileFieldName, filename, fileBytes, contentType);
      var open := Utf8.Encode(DelimiterLine(boundary));
      var close := Utf8.Encode(CloseDelimiterLine(boundary));
      |open| <= |body| && body[..|open|] == open
      && |close| <= |body| && body[|body| - |close|..] == close
  {
    var d := DelimiterLine(boundary);
    var fh := FileHeader(fileFieldName, filename, contentType);
    HeadStartsWithDelimiter(boundary, fields, fh);
    var rest :| FieldsText(boundary, fields) + d + fh == d + rest;
    FramingWith(d, rest, fileBytes, "\r\n", CloseDelimiterLine(boundary));
  }

  // =====================================================================
  // _send_file: the upload request or the JSON request
  // =====================================================================

  /** What `_send_file` is handed: raw bytes to upload, or a file id / URL. */
  datatype FileData = FileBytes(bytes: seq<Utf8.byte>) | FileRef(ref: string)

  /** The request that goes to `_api_call`. */
  datatype Request =
    | JsonRequest(apiMethod: string, payload: ODict<Json>)
    | MultipartRequest(apiMethod: string, contentType: string, body: seq<Utf8.byte>)

  /** `opts.get(name, default)` as the text an f-string makes of it. */
  function OptionText(opts: ODict<Json>, name: string, default: string, dumps: Json -> string, repr: Json -> string): string {
    match Get(opts, name)
    case None => default
    case Some(v) => Render(StrValue(v), dumps, repr)
  }

  /** The request `_send_file` sends; `token` stands for the random boundary
      suffix, `dumps` and `repr` for the library's renderings. */
  function FileRequest(apiMethod: string, fileField: string, chatId: Json, fileData: FileData,
                       defaultFilename: string, defaultMimetype: string, options: Option<ODict<Json>>,
                       token: string, dumps: Json -> string, repr: Json -> string): Result<Request>
  {
    match fileData
    case FileBytes(bytes) =>
      var opts := options.GetOr([]);
      var fields := RenderAll(FormFieldsOf(chatId, opts), dumps, repr);
      var filename := OptionText(opts, "filename", defaultFilename, dumps, repr);
      var contentType := OptionText(opts, "content_type", defaultMimetype, dumps, repr);
      Ok(MultipartRequest(apiMethod, "multipart/form-data; boundary=" + Boundary(token),
        MultipartBody(Boundary(token), fields, fileField, filename, bytes, contentType)))
    case FileRef(ref) =>
      match AssembledPayload(Set([("chat_id", chatId)], fileField, JStr(ref)), options)
      case Err(e) => Err(e)
      case Ok(p) => Ok(JsonRequest(apiMethod, p))
  }

  method SendFile(apiMethod: string, fileField: string, chatId: Json, fileData: FileData,
                  defaultFilename: string, defaultMimetype: string, options: Option<ODict<Json>>,
                  token: string, dumps: Json -> string, repr: Json -> string)
    returns (r: Result<Request>)
    requires options.Some? ==> DistinctKeys(options.value)
    ensures r == FileRequest(apiMethod, fileField, chatId, fileData, defaultFilename, defaultMimetype, options, token, dumps, repr)
  {
    if fileData.FileBytes? {
      var formFields := FormFields(chatId, options);
      var fields := RenderAll(formFields, dumps, repr);
      var opts := options.GetOr([]);
      var filename := OptionText(opts, "filename", defaultFilename, dumps, repr);
      var contentType := OptionText(opts, "content_type", defaultMimetype, dumps, repr);
      var body, ctype := BuildMultipart(fields, fileField, filename, fileData.bytes, contentType, token);
      r := Ok(MultipartRequest(apiMethod, ctype, body));
    } else {
      var payload := AssemblePayload(Set([("chat_id", chatId)], fileField, JStr(fileData.ref)), options);
      if payload.Err? {
        r := Err(payload.reason);
      } else {
        r := Ok(JsonRequest(apiMethod, payload.value));
      }
    }
  }

  /** The fields `_send_file` builds, whatever the options: `chat_id`
      first, and never `filename` or `content_type`. */
  lemma FormFieldsOfFacts(chatId: Json, opts: ODict<Json>)
    ensures var fields := FormFieldsOf(chatId, opts);
      |fields| >= 1 && Keys(fields)[0] == "chat_id"
      && !HasKey(fields, "filename") && !HasKey(fields, "content_type")
  {
    var base := [("chat_id", StrValue(chatId))];
    KeysUpdate(base, FormOptions(opts));
    FormOptionsFacts(opts, "filename");
    FormOptionsFacts(opts, "content_type");
    assert "chat_id" != "filename" && "chat_id" != "content_type";
    assert !HasKey(base[1..], "filename") && !HasKey(base[1..], "content_type");
    assert !HasKey(base, "filename") && !HasKey(base, "content_type");
  }

  /** Rendering the values does not touch the field names. */
  lemma RenderedKeys(fields: ODict<FormValue>, dumps: Json -> string, repr: Json -> string, k: string)
    ensures HasKey(RenderAll(fields, dumps, repr), k) <==> HasKey(fields, k)
  {
    HasKeyIsKeyMember(fields, k);
    HasKeyIsKeyMember(RenderAll(fields, dumps, repr), k);
  }

  /** An upload is always a multipart request. Its body is the form-data
      body of fields whose first is `chat_id` and among which neither
      `filename` nor `content_type` appears, and it opens with the
      delimiter line and ends with the close delimiter of the boundary
      named in its Content-Type. A file id or URL goes out as JSON with
      `chat_id` and then the file field first. */
  lemma SendFileShape(apiMethod: string, fileField: string, chatId: Json, fileData: FileData,
                      defaultFilename: string, defaultMimetype: string, options: Option<ODict<Json>>,
                      token: string, dumps: Json -> string, repr: Json -> string)
    requires options.Some? ==> DistinctKeys(options.value)
    ensures var r := FileRequest(apiMethod, fileField, chatId, fileData, defaultFilename, defaultMimetype, options, token, dumps, repr);
      if fileData.FileBytes? then
        var opts := options.GetOr([]);
        var fields := RenderAll(FormFieldsOf(chatId, opts), dumps, repr);
        var filename := OptionText(opts, "filename", defaultFilename, dumps, repr);
        var contentType := OptionText(opts, "content_type", defaultMimetype, dumps, repr);
        var open := Utf8.Encode(DelimiterLine(Boundary(token)));
        var close := Utf8.Encode(CloseDelimiterLine(Boundary(token)));
        r.Ok? && r.value.MultipartRequest? && r.value.apiMethod == apiMethod
        && r.value.contentType == "multipart/form-data; boundary=" + Boundary(token)
        && r.value.body == MultipartBody(Boundary(token), fields, fileField, filename, fileData.bytes, contentType)
        && |fields| >= 1 && Keys(fields)[0] == "chat_id"
        && !HasKey(fields, "filename") && !HasKey(fields, "content_type")
        && |open| <= |r.value.body| && r.value.body[..|open|] == open
        && |close| <= |r.value.body| && r.value.body[|r.value.body| - |close|..] == close
      else
        (r.Err? <==> Given(options) && HasKey(options.value, "reply_markup") && FixedOption(options.value).Err?)
        && (r.Ok? ==>
              r.value.JsonRequest? && r.value.apiMethod == apiMethod && r.value.payload != []
              && Keys(r.value.payload)[0] == "chat_id" && HasKey(r.value.payload, fileField)
              && (fileField != "chat_id" ==> |r.value.payload| >= 2 && Keys(r.value.payload)[1] == fileField))
  {
    match fileData
    case FileBytes(bytes) =>
      var opts := options.GetOr([]);
      var formFields := FormFieldsOf(chatId, opts);
      FormFieldsOfFacts(chatId, opts);
      RenderedKeys(formFields, dumps, repr, "filename");
      RenderedKeys(formFields, dumps, repr, "content_type");
      var fields := RenderAll(formFields, dumps, repr);
      MultipartFraming(Boundary(token), fields, fileField, OptionText(opts, "filename", defaultFilename, dumps, repr),
        bytes, OptionText(opts, "content_type", defaultMimetype, dumps, repr));
    case FileRef(ref) =>
      var base := Set([("chat_id", chatId)], fileField, JStr(ref));
      DistinctSet([("chat_id", chatId)], fileField, JStr(ref));
      KeysSet([("chat_id", chatId)], fileField, JStr(ref));
      HasKeySet([("chat_id", chatId)], fileField, JStr(ref), fileField);
      PayloadFails(base, options);
      if AssembledPayload(base, options).Ok? {
        PayloadKeys(base, options);
        if fileField != "chat_id" {
          assert !HasKey([("chat_id", chatId)], fileField);
          assert Keys(base) == ["chat_id", fileField];
        }
      }
  }
}
