/**
 * The `callback_data` strings the bot writes into its inline keyboards and
 * the way the callback handler reads them back: split on `:`, the action
 * in the first field, the media id in the last.
 */
module Tokens {
  import opened Wrappers
  import opened Text

  /** The buttons' meanings. `index` is the image position a pager button
      jumps to. */
  datatype Token =
    | Noop
    | View(kind: string, mediaId: string)
    | Nav(kind: string, lang: string, index: nat, mediaId: string)
    | Details(mediaId: string)
    | BackMain(mediaId: string)

  /** The string a button carries, as the f-strings of the keyboard
      builders write it. */
  function Encode(t: Token): string {
    match t
    case Noop => "noop"
    case View(kind, id) => "view:" + kind + ":" + id
    case Nav(kind, lang, index, id) => "nav:" + kind + ":" + lang + ":" + NatToString(index) + ":" + id
    case Details(id) => "details:" + id
    case BackMain(id) => "back:main:" + id
  }

  /** `data.split(":")`. */
  function Parts(data: string): (parts: seq<string>)
    ensures |parts| >= 1
  {
    Split(data, ':')
  }

  /** `parts[0]`. */
  function Action(data: string): string {
    Parts(data)[0]
  }

  /** `parts[-1]`. */
  function MediaIdOf(data: string): string {
    var parts := Parts(data);
    parts[|parts| - 1]
  }

  /** A token whose free-text fields contain no separator. */
  predicate Clean(t: Token) {
    match t
    case Noop => true
    case View(kind, id) => ':' !in kind && ':' !in id
    case Nav(kind, lang, _, id) => ':' !in kind && ':' !in lang && ':' !in id
    case Details(id) => ':' !in id
    case BackMain(id) => ':' !in id
  }

  /** The fields a clean token splits into. */
  function Fields(t: Token): (fs: seq<string>)
    ensures |fs| >= 1
  {
    match t
    case Noop => ["noop"]
    case View(kind, id) => ["view", kind, id]
    case Nav(kind, lang, index, id) => ["nav", kind, lang, NatToString(index), id]
    case Details(id) => ["details", id]
    case BackMain(id) => ["back", "main", id]
  }

  /** A reader of the bot's own tokens, used as the reference the round
      trip is stated against. */
  function Decode(data: string): Option<Token> {
    var p := Parts(data);
    if p == ["noop"] then Some(Noop)
    else if |p| == 3 && p[0] == "view" then Some(View(p[1], p[2]))
    else if |p| == 5 && p[0] == "nav" && ParseInt(p[3]).Some? && ParseInt(p[3]).value >= 0 then
      Some(Nav(p[1], p[2], ParseInt(p[3]).value, p[4]))
    else if |p| == 2 && p[0] == "details" then Some(Details(p[1]))
    else if |p| == 3 && p[0] == "back" && p[1] == "main" then Some(BackMain(p[2]))
    else None
  }

  lemma DigitsHaveNoColon(n: nat)
    ensures ':' !in NatToString(n)
  {
    var s := NatToString(n);
    assert forall i :: 0 <= i < |s| ==> s[i] != ':';
  }

  lemma JoinFront(a: string, rest: seq<string>)
    requires |rest| >= 1
    ensures Join([a] + rest, ':') == a + ":" + Join(rest, ':')
  {
    assert ([a] + rest)[1..] == rest;
  }

  lemma JoinViewFields(kind: string, id: string)
    ensures Encode(View(kind, id)) == Join(["view", kind, id], ':')
  {
    JoinFront(kind, [id]);
    JoinFront("view", [kind, id]);
  }

  lemma JoinNavFields(kind: string, lang: string, index: nat, id: string)
    ensures Encode(Nav(kind, lang, index, id)) == Join(["nav", kind, lang, NatToString(index), id], ':')
  {
    var n := NatToString(index);
    JoinFront(n, [id]);
    JoinFront(lang, [n, id]);
    JoinFront(kind, [lang, n, id]);
    JoinFront("nav", [kind, lang, n, id]);
  }

  lemma JoinBackFields(id: string)
    ensures Encode(BackMain(id)) == Join(["back", "main", id], ':')
  {
    JoinFront("main", [id]);
    JoinFront("back", ["main", id]);
  }

  /** The string of a token is its fields joined with `:`. */
  lemma EncodeJoins(t: Token)
    ensures Encode(t) == Join(Fields(t), ':')
  {
    match t
    case Noop =>
    case View(kind, id) => JoinViewFields(kind, id);
    case Nav(kind, lang, index, id) => JoinNavFields(kind, lang, index, id);
    case Details(id) => JoinFront("details", [id]);
    case BackMain(id) => JoinBackFields(id);
  }

  /** Splitting an emitted token on `:` gives back exactly its fields. */
  lemma {:induction false} SplitEncode(t: Token)
    requires Clean(t)
    ensures Parts(Encode(t)) == Fields(t)
  {
    EncodeJoins(t);
    var fs := Fields(t);
    if t.Nav? {
      DigitsHaveNoColon(t.index);
    }
    assert forall i :: 0 <= i < |fs| ==> ':' !in fs[i];
    SplitJoin(fs, ':');
  }

  /** The callback handler reads the action and the media id of every
      emitted token correctly, and a pager token has five fields with the
      decimal index in the fourth. */
  lemma TokenFields(t: Token)
    requires Clean(t)
    ensures Action(Encode(t)) == Fields(t)[0]
    ensures !t.Noop? ==> MediaIdOf(Encode(t)) == t.mediaId
    ensures t.Nav? ==> |Parts(Encode(t))| == 5 && ParseInt(Parts(Encode(t))[3]) == Some(t.index as int)
  {
    SplitEncode(t);
    if t.Nav? {
      ParseNatToString(t.index);
    }
  }

  /** Decoding an emitted token gives back the token. */
  lemma DecodeEncode(t: Token)
    requires Clean(t)
    ensures Decode(Encode(t)) == Some(t)
  {
    SplitEncode(t);
    if t.Nav? {
      ParseNatToString(t.index);
    }
  }
}
