/**
 * The bot's two handlers, `handle_message` and `handle_callback` (with the
 * pager `handle_pagination` and `send_main_menu`), over an abstract state:
 * the key-value cache of search results, where a missing key means the
 * entry expired, and the log of outbound effects in the order the
 * handlers await them.
 */
module Entry {
  import opened Wrappers
  import opened Text
  import opened Tokens
  import opened Media
  import opened Views
  import Dispatch

  /** The fixed texts the bot sends; `NothingFound` quotes the query. */
  datatype Notice =
    | Welcome | About | Faq | Disclaimer
    | IncludeYear | NothingFound(query: string) | MissingId | SearchFailed
    | SessionExpired | NoImages | CallbackFailed

  /** The outbound calls: cache reads and writes, the search request, and
      the Bot API calls. `markdown` is `parse_mode: "Markdown"`; `alert` is
      `show_alert`. */
  datatype Effect =
    | CacheGet(key: string)
    | CachePut(key: string, record: MediaRecord, ttl: nat)
    | Fetch(url: string)
    | ChatAction(chatId: int, action: string)
    | SendText(chatId: int, notice: Notice, markdown: bool)
    | SendPhoto(chatId: int, photo: string, caption: string, keyboard: Keyboard)
    | EditCaption(chatId: int, messageId: int, caption: string, keyboard: Keyboard)
    | EditMedia(chatId: int, messageId: int, photo: string, keyboard: Keyboard)
    | Answer(callbackId: string, text: Option<Notice>, alert: bool)

  type Cache = map<string, MediaRecord>

  /** Seconds a search result stays cached. */
  const CacheTtl: nat := 3600
  const SearchEndpoint := "https://tmdbapi-eight.vercel.app/api/movie-posters?query="
  const PlaceholderPoster := "https://via.placeholder.com/300x450.png?text=No+Poster"

  /** What the search request yields: the request raised, or a status and
      the decoded body (`None` when `response.json()` or `data.get` raises). */
  datatype SearchResponse = NetworkError | Response(status: int, body: Option<MediaRecord>)

  /** A handler run: its effects, and whether it ended by raising. */
  datatype Outcome = Outcome(effects: seq<Effect>, raised: bool)

  function SearchUrl(text: string): string {
    SearchEndpoint + ReplaceChar(text, ' ', '+')
  }

  /** `f"{data.get('media_id')}"`. */
  function MenuId(r: MediaRecord): string {
    if r.mediaId.Some? then IdText(r.mediaId.value) else "None"
  }

  /** The photo message `send_main_menu` sends. */
  function MainMenuMessage(chatId: int, r: MediaRecord): Effect {
    SendPhoto(chatId, r.posterUrl.GetOr(PlaceholderPoster), MainMenuCaption(r), MainMenuKeyboard(MenuId(r)))
  }

  // ---------------------------------------------------------------------
  // handle_message
  // ---------------------------------------------------------------------

  /** The reply to a known command and whether it is Markdown. */
  function CommandReply(command: string): Option<(Notice, bool)> {
    if command == "/start" then Some((Welcome, false))
    else if command == "/about" then Some((About, true))
    else if command == "/faq" then Some((Faq, true))
    else if command == "/disclaimer" then Some((Disclaimer, true))
    else None
  }

  /** The search part of `handle_message`, once the text is known to be a
      non-empty query. */
  function SearchEffects(chatId: int, query: string, response: SearchResponse): seq<Effect> {
    if !HasDigit(query) then [SendText(chatId, IncludeYear, false)]
    else
      [Fetch(SearchUrl(query))] +
      match response
      case NetworkError => [SendText(chatId, SearchFailed, false)]
      case Response(status, body) =>
        if status != 200 then [SendText(chatId, NothingFound(query), false)]
        else if body.None? then [SendText(chatId, SearchFailed, false)]
        else
          var r := body.value;
          if r.mediaId.None? || !IdTruthy(r.mediaId.value) then [SendText(chatId, MissingId, false)]
          else [CachePut(CacheKey(IdText(r.mediaId.value)), r, CacheTtl), MainMenuMessage(chatId, r)]
  }

  /** The reply to a message that starts with `/`: one text, or nothing
      for an unknown command. */
  function CommandEffects(chatId: int, command: string): seq<Effect> {
    match CommandReply(command)
    case Some((notice, markdown)) => [SendText(chatId, notice, markdown)]
    case None => []
  }

  /** Everything `handle_message` does for a message in chat `chatId` whose
      `text` field is `text`. */
  function MessageEffects(chatId: int, text: Option<string>, response: SearchResponse): seq<Effect> {
    TextEffects(chatId, Strip(text.GetOr("")), response)
  }

  /** `MessageEffects` once the text is stripped. */
  function TextEffects(chatId: int, t: string, response: SearchResponse): seq<Effect> {
    if StartsWith(t, "/") then CommandEffects(chatId, t)
    else if t == "" then []
    else [ChatAction(chatId, "typing")] + SearchEffects(chatId, t, response)
  }

  /** The cache after a run of effects: every write stores its record. */
  function Stored(cache: Cache, effects: seq<Effect>): Cache
    decreases |effects|
  {
    if effects == [] then cache
    else
      var next := if effects[0].CachePut? then cache[effects[0].key := effects[0].record] else cache;
      Stored(next, effects[1..])
  }

  /** The number of cache writes in a run of effects. */
  function Writes(effects: seq<Effect>): nat
    decreases |effects|
  {
    if effects == [] then 0 else (if effects[0].CachePut? then 1 else 0) + Writes(effects[1..])
  }

  /** Effects that write nothing leave the cache as it is. */
  lemma {:induction false} StoredWithoutWrites(cache: Cache, effects: seq<Effect>)
    requires Writes(effects) == 0
    ensures Stored(cache, effects) == cache
    decreases |effects|
  {
    if effects != [] {
      StoredWithoutWrites(cache, effects[1..]);
    }
  }

  lemma StoredSkip(cache: Cache, e: Effect, rest: seq<Effect>)
    requires !e.CachePut?
    ensures Stored(cache, [e] + rest) == Stored(cache, rest)
  {
    assert ([e] + rest)[1..] == rest;
  }

  predicate Fetches(effects: seq<Effect>) {
    exists i :: 0 <= i < |effects| && effects[i].Fetch?
  }

  /** A search that is answered by a cache write: status 200, a decoded
      body, and a truthy `media_id`. */
  predicate Found(response: SearchResponse) {
    response.Response? && response.status == 200 && response.body.Some?
    && response.body.value.mediaId.Some? && IdTruthy(response.body.value.mediaId.value)
  }

  // ---------------------------------------------------------------------
  // handle_pagination and handle_callback
  // ---------------------------------------------------------------------

  /** Everything `handle_pagination` does for the split token `parts`; any
      exception inside it is caught and answered with an alert. */
  function PagerEffects(cbId: string, chatId: int, messageId: int, parts: seq<string>, cache: Cache): seq<Effect> {
    if |parts| != 5 || ParseInt(parts[3]).None? then [Answer(cbId, Some(CallbackFailed), true)]
    else
      var kind, lang, id := parts[1], parts[2], parts[4];
      var key := CacheKey(id);
      if key !in cache then [CacheGet(key), Answer(cbId, Some(SessionExpired), true)]
      else
        match Pager(ImagesFor(cache[key], kind, lang), ParseInt(parts[3]).value, kind, lang, id)
        case None => [CacheGet(key), Answer(cbId, Some(NoImages), false)]
        case Some(page) =>
          [CacheGet(key), EditMedia(chatId, messageId, page.image, page.keyboard), Answer(cbId, None, false)]
  }

  /** Everything `handle_callback` does for a button press whose `data`
      field is `data`. */
  function CallbackOutcome(cbId: string, chatId: int, messageId: int, data: Option<string>, cache: Cache): Outcome {
    var parts := Parts(data.GetOr(""));
    var action := parts[0];
    if action == "noop" then Outcome([Answer(cbId, None, false)], false)
    else
      var id := parts[|parts| - 1];
      var key := CacheKey(id);
      var lookup := [CacheGet(key)];
      if key !in cache then Outcome(lookup + [Answer(cbId, Some(SessionExpired), true)], false)
      else
        var hit := ActionOutcome(cbId, chatId, messageId, parts, id, cache);
        Outcome(lookup + hit.effects, hit.raised)
  }

  /** What `handle_callback` does once the record of `id` was found in the
      cache. `view` and `back` with a single field raise `IndexError`,
      which the handler does not catch. */
  function ActionOutcome(cbId: string, chatId: int, messageId: int, parts: seq<string>, id: string, cache: Cache): Outcome
    requires |parts| >= 1 && CacheKey(id) in cache
  {
    var r := cache[CacheKey(id)];
    var action := parts[0];
    if action == "view" then
      if |parts| < 2 then Outcome([], true)
      else
        var kind := parts[1];
        Outcome([EditCaption(chatId, messageId, LanguageCaption(r, kind), LanguageKeyboard(r, kind, id)),
                 Answer(cbId, None, false)], false)
    else if action == "nav" then Outcome(PagerEffects(cbId, chatId, messageId, parts, cache), false)
    else if action == "details" then
      Outcome([EditCaption(chatId, messageId, DetailsCaption(r), DetailsKeyboard(id)), Answer(cbId, None, false)], false)
    else if action == "back" then
      if |parts| < 2 then Outcome([], true)
      else if parts[1] == "main" then
        Outcome([EditCaption(chatId, messageId, MainMenuCaption(r), MainMenuKeyboard(id)), Answer(cbId, None, false)], false)
      else Outcome([], false)
    else Outcome([], false)
  }

  predicate Edits(effects: seq<Effect>) {
    exists i :: 0 <= i < |effects| && (effects[i].EditCaption? || effects[i].EditMedia?)
  }

  // ---------------------------------------------------------------------
  // The handlers over the cache and the effect log
  // ---------------------------------------------------------------------

  class Worker {
    var cache: Cache
    var log: seq<Effect>

    constructor(initial: Cache)
      ensures cache == initial && log == []
    {
      cache := initial;
      log := [];
    }

    method SendMainMenu(chatId: int, data: MediaRecord)
      modifies this
      ensures log == old(log) + [MainMenuMessage(chatId, data)]
      ensures cache == old(cache)
    {
      var mediaId := MenuId(data);
      var plot := data.plot.GetOr("No summary available.");
      var caption := "\U{1F3AC} *" + data.title.GetOr("N/A") + "* (" + data.year.GetOr("N/A") + ")\n\n" + Take(plot, PlotLimit);
      var keyboard := MainMenuKeyboard(mediaId);
      log := log + [SendPhoto(chatId, data.posterUrl.GetOr(PlaceholderPoster), caption, keyboard)];
    }

    /** The search branch of `handle_message`, from the digit check on. */
    method Search(chatId: int, query: string, response: SearchResponse)
      modifies this
      ensures log == old(log) + SearchEffects(chatId, query, response)
      ensures cache == Stored(old(cache), SearchEffects(chatId, query, response))
    {
      if !HasDigit(query) {
        log := log + [SendText(chatId, IncludeYear, false)];
        assert Writes([SendText(chatId, IncludeYear, false)]) == 0;
        StoredWithoutWrites(cache, [SendText(chatId, IncludeYear, false)]);
        return;
      }
      var reply: Effect;
      if response.NetworkError? {
        reply := SendText(chatId, SearchFailed, false);
      } else if response.status != 200 {
        reply := SendText(chatId, NothingFound(query), false);
      } else if response.body.None? {
        reply := SendText(chatId, SearchFailed, false);
      } else if response.body.value.mediaId.None? || !IdTruthy(response.body.value.mediaId.value) {
        reply := SendText(chatId, MissingId, false);
      } else {
        var data := response.body.value;
        var key := CacheKey(IdText(data.mediaId.value));
        log := log + [Fetch(SearchEndpoint + ReplaceChar(query, ' ', '+'))];
        cache := cache[key := data];
        log := log + [CachePut(key, data, CacheTtl)];
        SendMainMenu(chatId, data);
        ghost var effs := SearchEffects(chatId, query, response);
        assert effs == [Fetch(SearchUrl(query)), CachePut(key, data, CacheTtl), MainMenuMessage(chatId, data)];
        assert Writes(effs[1..][1..]) == 0;
        StoredWithoutWrites(old(cache)[key := data], effs[1..][1..]);
        return;
      }
      log := log + [Fetch(SearchEndpoint + ReplaceChar(query, ' ', '+')), reply];
      ghost var effs := SearchEffects(chatId, query, response);
      assert effs == [Fetch(SearchUrl(query)), reply];
      assert effs[1..] == [reply] && effs[1..][1..] == [] && !reply.CachePut?;
      assert Writes(effs[1..]) == 0;
      assert Writes(effs) == 0;
      StoredWithoutWrites(cache, effs);
    }

    /** The command branch of `handle_message`. */
    method HandleCommand(chatId: int, command: string)
      modifies this
      ensures log == old(log) + CommandEffects(chatId, command)
      ensures cache == old(cache) == Stored(old(cache), CommandEffects(chatId, command))
    {
      var reply: seq<Effect> := [];
      if command == "/start" {
        reply := [SendText(chatId, Welcome, false)];
      } else if command == "/about" {
        reply := [SendText(chatId, About, true)];
      } else if command == "/faq" {
        reply := [SendText(chatId, Faq, true)];
      } else if command == "/disclaimer" {
        reply := [SendText(chatId, Disclaimer, true)];
      }
      assert reply == CommandEffects(chatId, command);
      assert Writes(reply) == 0;
      StoredWithoutWrites(cache, reply);
      log := log + reply;
    }

    method HandleMessage(chatId: int, text: Option<string>, response: SearchResponse)
      modifies this
      ensures log == old(log) + MessageEffects(chatId, text, response)
      ensures cache == Stored(old(cache), MessageEffects(chatId, text, response))
    {
      var t := Strip(text.GetOr(""));
      HandleText(chatId, t, response);
    }

    /** `handle_message` once the text is stripped. */
    method HandleText(chatId: int, t: string, response: SearchResponse)
      modifies this
      ensures log == old(log) + TextEffects(chatId, t, response)
      ensures cache == Stored(old(cache), TextEffects(chatId, t, response))
    {
      if StartsWith(t, "/") {
        HandleCommand(chatId, t);
        return;
      }
      if t == "" {
        return;
      }
      StoredSkip(cache, ChatAction(chatId, "typing"), SearchEffects(chatId, t, response));
      log := log + [ChatAction(chatId, "typing")];
      Search(chatId, t, response);
    }

    method HandlePagination(cbId: string, chatId: int, messageId: int, parts: seq<string>)
      modifies this
      ensures log == old(log) + PagerEffects(cbId, chatId, messageId, parts, old(cache))
      ensures cache == old(cache)
    {
      ghost var effs := PagerEffects(cbId, chatId, messageId, parts, cache);
      if |parts| != 5 {
        log := log + [Answer(cbId, Some(CallbackFailed), true)];
        return;
      }
      var mediaType, lang, currentIndexStr, mediaId := parts[1], parts[2], parts[3], parts[4];
      var currentIndex := ParseInt(currentIndexStr);
      if currentIndex.None? {
        log := log + [Answer(cbId, Some(CallbackFailed), true)];
        return;
      }
      var key := CacheKey(mediaId);
      if key !in cache {
        log := log + [CacheGet(key), Answer(cbId, Some(SessionExpired), true)];
        return;
      }
      var imageList := ImagesFor(cache[key], mediaType, lang);
      ghost var page := Pager(imageList, currentIndex.value, mediaType, lang, mediaId);
      assert effs == match page
        case None => [CacheGet(key), Answer(cbId, Some(NoImages), false)]
        case Some(p) => [CacheGet(key), EditMedia(chatId, messageId, p.image, p.keyboard), Answer(cbId, None, false)];
      if imageList == [] {
        log := log + [CacheGet(key), Answer(cbId, Some(NoImages), false)];
        return;
      }
      var total := |imageList|;
      var newIndex := Clamp(currentIndex.value, total);
      var buttons := PagerButtons(mediaType, lang, newIndex, total, mediaId);
      log := log + [CacheGet(key), EditMedia(chatId, messageId, imageList[newIndex], buttons), Answer(cbId, None, false)];
    }

    /** The two rows `handle_pagination` builds with `append`. */
    static method PagerButtons(mediaType: string, lang: string, newIndex: nat, total: nat, mediaId: string)
      returns (buttons: Keyboard)
      ensures buttons == PagerKeyboard(mediaType, lang, newIndex, total, mediaId)
    {
      ghost var prev := if newIndex > 0 then [Button(PrevLabel, Encode(Nav(mediaType, lang, newIndex - 1, mediaId)))] else [];
      ghost var next := if newIndex + 1 < total then [Button(NextLabel, Encode(Nav(mediaType, lang, newIndex + 1, mediaId)))] else [];
      var row1: seq<Button> := [];
      if newIndex > 0 {
        row1 := row1 + [Button(PrevLabel, Encode(Nav(mediaType, lang, newIndex - 1, mediaId)))];
      }
      assert row1 == prev;
      row1 := row1 + [Indicator(newIndex, total)];
      if newIndex + 1 < total {
        row1 := row1 + [Button(NextLabel, Encode(Nav(mediaType, lang, newIndex + 1, mediaId)))];
      }
      assert row1 == prev + [Indicator(newIndex, total)] + next;
      buttons := [row1, BackToLanguagesRow(mediaType, mediaId)];
    }

    method HandleCallback(cbId: string, chatId: int, messageId: int, data: Option<string>) returns (raised: bool)
      modifies this
      ensures log == old(log) + CallbackOutcome(cbId, chatId, messageId, data, old(cache)).effects
      ensures raised == CallbackOutcome(cbId, chatId, messageId, data, old(cache)).raised
      ensures cache == old(cache)
    {
      raised := false;
      var parts := Parts(data.GetOr(""));
      var action := parts[0];
      if action == "noop" {
        log := log + [Answer(cbId, None, false)];
        return;
      }
      var mediaId := parts[|parts| - 1];
      var key := CacheKey(mediaId);
      log := log + [CacheGet(key)];
      if key !in cache {
        log := log + [Answer(cbId, Some(SessionExpired), true)];
        return;
      }
      raised := HandleAction(cbId, chatId, messageId, parts, mediaId);
    }

    /** The branches of `handle_callback` after the record was found. */
    method HandleAction(cbId: string, chatId: int, messageId: int, parts: seq<string>, mediaId: string) returns (raised: bool)
      requires |parts| >= 1 && CacheKey(mediaId) in cache
      modifies this
      ensures log == old(log) + ActionOutcome(cbId, chatId, messageId, parts, mediaId, old(cache)).effects
      ensures raised == ActionOutcome(cbId, chatId, messageId, parts, mediaId, old(cache)).raised
      ensures cache == old(cache)
    {
      raised := false;
      var action := parts[0];
      var resultData := cache[CacheKey(mediaId)];
      var reply: seq<Effect> := [];
      if action == "view" {
        if |parts| < 2 {
          return true;
        }
        var mediaType := parts[1];
        var buttons := BuildLanguageKeyboard(resultData, mediaType, mediaId);
        reply := [EditCaption(chatId, messageId, LanguageCaption(resultData, mediaType), buttons), Answer(cbId, None, false)];
      } else if action == "nav" {
        HandlePagination(cbId, chatId, messageId, parts);
        return;
      } else if action == "details" {
        reply := [EditCaption(chatId, messageId, DetailsCaption(resultData), DetailsKeyboard(mediaId)), Answer(cbId, None, false)];
      } else if action == "back" {
        if |parts| < 2 {
          return true;
        }
        if parts[1] == "main" {
          reply := [EditCaption(chatId, messageId, MainMenuCaption(resultData), MainMenuKeyboard(mediaId)), Answer(cbId, None, false)];
        }
      }
      log := log + reply;
    }
  }

  // ---------------------------------------------------------------------
  // Registration with the dispatcher
  // ---------------------------------------------------------------------

  datatype Handler = MessageHandler | CallbackHandler

  /** The two decorators at module load: one message handler, one callback
      handler. */
  method RegisterHandlers() returns (d: Dispatch.Dispatcher<Handler>)
    ensures fresh(d)
    ensures d.messageHandlers == [MessageHandler] && d.callbackQueryHandlers == [CallbackHandler]
  {
    d := new Dispatch.Dispatcher();
    var _ := d.OnMessage(MessageHandler);
    var _ := d.OnCallbackQuery(CallbackHandler);
  }
}
