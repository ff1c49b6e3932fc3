/**
 * What the two handlers promise, stated over the effect functions of
 * `Entry`: which messages reach the search service, when the cache is
 * written, and what each button the bot itself emits does when pressed.
 */
module EntryLaws {
  import opened Wrappers
  import opened Text
  import opened Tokens
  import opened Media
  import opened Views
  import opened Entry

  // ---------------------------------------------------------------------
  // handle_message
  // ---------------------------------------------------------------------

  /** A message is a search exactly when its stripped text is non-empty,
      is not a command and has a digit. */
  predicate IsSearch(t: string) {
    t != "" && !StartsWith(t, "/") && HasDigit(t)
  }

  lemma WritesSkip(e: Effect, rest: seq<Effect>)
    requires !e.CachePut?
    ensures Writes([e] + rest) == Writes(rest)
  {
    assert ([e] + rest)[1..] == rest;
  }

  /** `CommandsNeverSearch` for the stripped text. */
  lemma CommandTextNeverSearches(chatId: int, t: string, response: SearchResponse)
    requires StartsWith(t, "/")
    ensures var effs := TextEffects(chatId, t, response);
      |effs| <= 1 && !Fetches(effs) && Writes(effs) == 0
      && (effs == [] <==> CommandReply(t).None?)
  {
    var effs := TextEffects(chatId, t, response);
    assert effs == CommandEffects(chatId, t);
    if effs != [] {
      assert effs[1..] == [];
    }
  }

  /** A command is answered from the command table alone: at most one
      message, no request to the search service, no cache write. */
  lemma CommandsNeverSearch(chatId: int, text: Option<string>, response: SearchResponse)
    requires StartsWith(Strip(text.GetOr("")), "/")
    ensures var effs := MessageEffects(chatId, text, response);
      |effs| <= 1 && !Fetches(effs) && Writes(effs) == 0
      && (effs == [] <==> CommandReply(Strip(text.GetOr(""))).None?)
  {
    CommandTextNeverSearches(chatId, Strip(text.GetOr("")), response);
  }

  /** `NoDigitPrompt` for the stripped text. */
  lemma NoDigitText(chatId: int, t: string, response: SearchResponse)
    requires t != "" && !StartsWith(t, "/") && !HasDigit(t)
    ensures TextEffects(chatId, t, response) == [ChatAction(chatId, "typing"), SendText(chatId, IncludeYear, false)]
    ensures !Fetches(TextEffects(chatId, t, response))
  {
    var effs := TextEffects(chatId, t, response);
    assert SearchEffects(chatId, t, response) == [SendText(chatId, IncludeYear, false)];
    assert effs == [ChatAction(chatId, "typing"), SendText(chatId, IncludeYear, false)];
    assert !effs[0].Fetch? && !effs[1].Fetch?;
  }

  /** A query without a digit gets the typing indicator and the request
      for a year, and nothing is fetched. */
  lemma NoDigitPrompt(chatId: int, text: Option<string>, response: SearchResponse)
    requires var t := Strip(text.GetOr("")); t != "" && !StartsWith(t, "/") && !HasDigit(t)
    ensures MessageEffects(chatId, text, response) == [ChatAction(chatId, "typing"), SendText(chatId, IncludeYear, false)]
    ensures !Fetches(MessageEffects(chatId, text, response))
  {
    NoDigitText(chatId, Strip(text.GetOr("")), response);
  }

  lemma FetchesSkip(e: Effect, rest: seq<Effect>)
    requires !e.Fetch?
    ensures Fetches([e] + rest) <==> Fetches(rest)
  {
    if Fetches(rest) {
      var i :| 0 <= i < |rest| && rest[i].Fetch?;
      assert ([e] + rest)[i + 1] == rest[i];
    }
    if Fetches([e] + rest) {
      var i :| 0 <= i < |[e] + rest| && ([e] + rest)[i].Fetch?;
      assert rest[i - 1] == ([e] + rest)[i];
    }
  }

  /** The search part fetches exactly when the query has a digit, and
      then before anything else. */
  lemma SearchFetches(chatId: int, query: string, response: SearchResponse)
    ensures var effs := SearchEffects(chatId, query, response);
      (Fetches(effs) <==> HasDigit(query)) && (HasDigit(query) ==> effs[0] == Fetch(SearchUrl(query)))
  {
    var effs := SearchEffects(chatId, query, response);
    if HasDigit(query) {
      assert effs[0].Fetch?;
    } else {
      assert effs == [SendText(chatId, IncludeYear, false)];
    }
  }

  lemma CommandFetchesNothing(chatId: int, command: string)
    ensures !Fetches(CommandEffects(chatId, command))
  {
  }

  lemma TextFetchRule(chatId: int, t: string, response: SearchResponse)
    ensures var effs := TextEffects(chatId, t, response);
      (Fetches(effs) <==> IsSearch(t)) && (IsSearch(t) ==> |effs| >= 2 && effs[1] == Fetch(SearchUrl(t)))
  {
    if StartsWith(t, "/") {
      CommandFetchesNothing(chatId, t);
    } else if t != "" {
      var search := SearchEffects(chatId, t, response);
      SearchFetches(chatId, t, response);
      FetchesSkip(ChatAction(chatId, "typing"), search);
    }
  }

  /** The search service is asked exactly for search messages, and then
      with the query's spaces turned into `+`. */
  lemma FetchRule(chatId: int, text: Option<string>, response: SearchResponse)
    ensures var t := Strip(text.GetOr(""));
      var effs := MessageEffects(chatId, text, response);
      (Fetches(effs) <==> IsSearch(t))
      && (IsSearch(t) ==> |effs| >= 2 && effs[1] == Fetch(SearchUrl(t)))
  {
    TextFetchRule(chatId, Strip(text.GetOr("")), response);
  }

  /** The search part writes at most once, and exactly when the query
      has a digit and the response is a found record. */
  lemma SearchWrites(chatId: int, query: string, response: SearchResponse)
    ensures var effs := SearchEffects(chatId, query, response);
      Writes(effs) <= 1 && (Writes(effs) == 1 <==> HasDigit(query) && Found(response))
  {
    var effs := SearchEffects(chatId, query, response);
    if !HasDigit(query) {
      WritesSkip(SendText(chatId, IncludeYear, false), []);
      assert effs == [SendText(chatId, IncludeYear, false)] + [];
    } else {
      var tail := effs[1..];
      assert effs == [Fetch(SearchUrl(query))] + tail;
      WritesSkip(Fetch(SearchUrl(query)), tail);
      if Found(response) {
        var r := response.body.value;
        var menu := MainMenuMessage(chatId, r);
        assert tail == [CachePut(CacheKey(IdText(r.mediaId.value)), r, CacheTtl)] + [menu];
        WritesSkip(menu, []);
        assert [menu] == [menu] + [];
        assert ([CachePut(CacheKey(IdText(r.mediaId.value)), r, CacheTtl)] + [menu])[1..] == [menu];
      } else {
        assert |tail| == 1 && !tail[0].CachePut?;
        WritesSkip(tail[0], []);
        assert tail == [tail[0]] + [];
      }
    }
  }

  /** The cache-write rule of `handle_message`: at most one write, and a
      write exactly when a search message gets status 200 and a body with
      a truthy `media_id`. */
  lemma CacheWriteRule(chatId: int, text: Option<string>, response: SearchResponse)
    ensures var t := Strip(text.GetOr(""));
      var effs := MessageEffects(chatId, text, response);
      Writes(effs) <= 1 && (Writes(effs) == 1 <==> IsSearch(t) && Found(response))
  {
    var t := Strip(text.GetOr(""));
    var effs := MessageEffects(chatId, text, response);
    assert effs == TextEffects(chatId, t, response);
    if StartsWith(t, "/") {
      CommandTextNeverSearches(chatId, t, response);
    } else if t != "" {
      SearchWrites(chatId, t, response);
      WritesSkip(ChatAction(chatId, "typing"), SearchEffects(chatId, t, response));
    }
  }

  lemma StoredOneWrite(cache: Cache, a: Effect, b: Effect, key: string, r: MediaRecord, ttl: nat, c: Effect)
    requires !a.CachePut? && !b.CachePut? && !c.CachePut?
    ensures Stored(cache, [a, b, CachePut(key, r, ttl), c]) == cache[key := r]
  {
    var put := CachePut(key, r, ttl);
    assert [a, b, put, c] == [a] + ([b] + ([put] + [c]));
    StoredSkip(cache, a, [b] + ([put] + [c]));
    StoredSkip(cache, b, [put] + [c]);
    assert ([put] + [c])[1..] == [c];
    StoredSkip(cache[key := r], c, []);
    assert [c] == [c] + [];
  }

  lemma FoundSearchEffects(chatId: int, query: string, response: SearchResponse)
    requires HasDigit(query) && Found(response)
    ensures var r := response.body.value;
      SearchEffects(chatId, query, response)
      == [Fetch(SearchUrl(query)), CachePut(CacheKey(MenuId(r)), r, CacheTtl), MainMenuMessage(chatId, r)]
  {
  }

  lemma FoundTextStores(cache: Cache, chatId: int, t: string, response: SearchResponse)
    requires IsSearch(t) && Found(response)
    ensures var r := response.body.value;
      var key := CacheKey(MenuId(r));
      var effs := TextEffects(chatId, t, response);
      effs == [ChatAction(chatId, "typing"), Fetch(SearchUrl(t)), CachePut(key, r, CacheTtl), MainMenuMessage(chatId, r)]
      && Stored(cache, effs) == cache[key := r]
  {
    var r := response.body.value;
    FoundSearchEffects(chatId, t, response);
    StoredOneWrite(cache, ChatAction(chatId, "typing"), Fetch(SearchUrl(t)), CacheKey(MenuId(r)), r, CacheTtl,
                   MainMenuMessage(chatId, r));
  }

  /** A found search stores the record under `media:<id>` for an hour and
      then shows the main menu; the cache afterwards is the old one with
      that one entry set. */
  lemma FoundSearchStores(cache: Cache, chatId: int, text: Option<string>, response: SearchResponse)
    requires IsSearch(Strip(text.GetOr(""))) && Found(response)
    ensures var t := Strip(text.GetOr(""));
      var r := response.body.value;
      var key := CacheKey(MenuId(r));
      var effs := MessageEffects(chatId, text, response);
      effs == [ChatAction(chatId, "typing"), Fetch(SearchUrl(t)), CachePut(key, r, CacheTtl), MainMenuMessage(chatId, r)]
      && Stored(cache, effs) == cache[key := r]
  {
    FoundTextStores(cache, chatId, Strip(text.GetOr("")), response);
  }

  /** Every message other than a found search leaves the cache alone. */
  lemma OtherMessagesKeepCache(cache: Cache, chatId: int, text: Option<string>, response: SearchResponse)
    requires !(IsSearch(Strip(text.GetOr(""))) && Found(response))
    ensures Stored(cache, MessageEffects(chatId, text, response)) == cache
  {
    CacheWriteRule(chatId, text, response);
    StoredWithoutWrites(cache, MessageEffects(chatId, text, response));
  }

  // ---------------------------------------------------------------------
  // handle_callback: the token protocol
  // ---------------------------------------------------------------------

  /** Only `noop` is acknowledged without a cache read; every other press
      starts by reading `media:<last field>`. */
  lemma NoopOnlyAnswers(cbId: string, chatId: int, messageId: int, data: Option<string>, cache: Cache)
    ensures var d := data.GetOr("");
      var o := CallbackOutcome(cbId, chatId, messageId, data, cache);
      (Action(d) == "noop" <==> o.effects == [Answer(cbId, None, false)])
      && (Action(d) != "noop" ==> o.effects != [] && o.effects[0] == CacheGet(CacheKey(MediaIdOf(d))))
  {
    var d := data.GetOr("");
    var o := CallbackOutcome(cbId, chatId, messageId, data, cache);
    if Action(d) != "noop" {
      var parts := Parts(d);
      var id := MediaIdOf(d);
      if CacheKey(id) in cache {
        var hit := ActionOutcome(cbId, chatId, messageId, parts, id, cache);
        assert o.effects == [CacheGet(CacheKey(id))] + hit.effects;
      }
      assert o.effects[0] == CacheGet(CacheKey(id));
      assert o.effects != [Answer(cbId, None, false)];
    }
  }

  /** A press whose entry has expired is answered with the alert and
      edits nothing, whatever the action. */
  lemma ExpiredSession(cbId: string, chatId: int, messageId: int, data: Option<string>, cache: Cache)
    requires Action(data.GetOr("")) != "noop" && CacheKey(MediaIdOf(data.GetOr(""))) !in cache
    ensures var key := CacheKey(MediaIdOf(data.GetOr("")));
      var o := CallbackOutcome(cbId, chatId, messageId, data, cache);
      o == Outcome([CacheGet(key), Answer(cbId, Some(SessionExpired), true)], false)
      && !Edits(o.effects)
  {
  }

  /** `view` or `back` with nothing after it raises `IndexError` once the
      entry named by the action itself is found. */
  lemma ShortTokenRaises(cbId: string, chatId: int, messageId: int, action: string, cache: Cache)
    requires action == "view" || action == "back"
    requires CacheKey(action) in cache
    ensures CallbackOutcome(cbId, chatId, messageId, Some(action), cache) == Outcome([CacheGet(CacheKey(action))], true)
  {
    assert Parts(action) == [action] by {
      SplitJoin([action], ':');
    }
  }

  /** A press on a `view` token the bot emitted opens the language picker
      for that kind. */
  lemma ViewDispatch(cbId: string, chatId: int, messageId: int, kind: string, id: string, cache: Cache)
    requires Clean(View(kind, id)) && CacheKey(id) in cache
    ensures var r := cache[CacheKey(id)];
      CallbackOutcome(cbId, chatId, messageId, Some(Encode(View(kind, id))), cache)
      == Outcome([CacheGet(CacheKey(id)),
                  EditCaption(chatId, messageId, LanguageCaption(r, kind), LanguageKeyboard(r, kind, id)),
                  Answer(cbId, None, false)], false)
  {
    SplitEncode(View(kind, id));
  }

  /** A press on a `details` token shows the details page. */
  lemma DetailsDispatch(cbId: string, chatId: int, messageId: int, id: string, cache: Cache)
    requires ':' !in id && CacheKey(id) in cache
    ensures var r := cache[CacheKey(id)];
      CallbackOutcome(cbId, chatId, messageId, Some(Encode(Details(id))), cache)
      == Outcome([CacheGet(CacheKey(id)), EditCaption(chatId, messageId, DetailsCaption(r), DetailsKeyboard(id)),
                  Answer(cbId, None, false)], false)
  {
    SplitEncode(Details(id));
  }

  /** A press on `back:main` puts back the caption and the keyboard the
      main-menu photo was sent with. */
  lemma BackMainRestoresMenu(cbId: string, chatId: int, messageId: int, id: string, cache: Cache)
    requires ':' !in id && CacheKey(id) in cache && MenuId(cache[CacheKey(id)]) == id
    ensures var menu := MainMenuMessage(chatId, cache[CacheKey(id)]);
      CallbackOutcome(cbId, chatId, messageId, Some(Encode(BackMain(id))), cache)
      == Outcome([CacheGet(CacheKey(id)), EditCaption(chatId, messageId, menu.caption, menu.keyboard),
                  Answer(cbId, None, false)], false)
  {
    SplitEncode(BackMain(id));
  }

  /** A press on a pager token reads the entry twice (the handler, then the
      pager) and shows the image at the token's index, clamped into the
      list, with the keyboard for that position. */
  lemma NavShowsPage(cbId: string, chatId: int, messageId: int, kind: string, lang: string, index: nat, id: string,
                     cache: Cache)
    requires Clean(Nav(kind, lang, index, id)) && CacheKey(id) in cache
    requires ImagesFor(cache[CacheKey(id)], kind, lang) != []
    ensures var images := ImagesFor(cache[CacheKey(id)], kind, lang);
      var n := Clamp(index, |images|);
      CallbackOutcome(cbId, chatId, messageId, Some(Encode(Nav(kind, lang, index, id))), cache)
      == Outcome([CacheGet(CacheKey(id)), CacheGet(CacheKey(id)),
                  EditMedia(chatId, messageId, images[n], PagerKeyboard(kind, lang, n, |images|, id)),
                  Answer(cbId, None, false)], false)
  {
    var t := Nav(kind, lang, index, id);
    SplitEncode(t);
    TokenFields(t);
  }

  /** A pager token for a language without images is answered with a
      plain notice and edits nothing. */
  lemma NavWithoutImages(cbId: string, chatId: int, messageId: int, kind: string, lang: string, index: nat, id: string,
                         cache: Cache)
    requires Clean(Nav(kind, lang, index, id)) && CacheKey(id) in cache
    requires ImagesFor(cache[CacheKey(id)], kind, lang) == []
    ensures var o := CallbackOutcome(cbId, chatId, messageId, Some(Encode(Nav(kind, lang, index, id))), cache);
      o == Outcome([CacheGet(CacheKey(id)), CacheGet(CacheKey(id)), Answer(cbId, Some(NoImages), false)], false)
      && !Edits(o.effects)
  {
    var t := Nav(kind, lang, index, id);
    SplitEncode(t);
    TokenFields(t);
  }

  /** Inside the pager, too, an expired entry gets the alert and no edit. */
  lemma PagerExpired(cbId: string, chatId: int, messageId: int, parts: seq<string>, cache: Cache)
    requires |parts| == 5 && ParseInt(parts[3]).Some? && CacheKey(parts[4]) !in cache
    ensures var effs := PagerEffects(cbId, chatId, messageId, parts, cache);
      effs == [CacheGet(CacheKey(parts[4])), Answer(cbId, Some(SessionExpired), true)] && !Edits(effs)
  {
  }

  /** The pager edits the message exactly when the entry is cached and has
      images for the token's kind and language, and the image it shows is
      one of them. */
  lemma PagerEditsIff(cbId: string, chatId: int, messageId: int, parts: seq<string>, cache: Cache)
    ensures var effs := PagerEffects(cbId, chatId, messageId, parts, cache);
      Edits(effs) <==> (|parts| == 5 && ParseInt(parts[3]).Some? && CacheKey(parts[4]) in cache
                        && ImagesFor(cache[CacheKey(parts[4])], parts[1], parts[2]) != [])
    ensures var effs := PagerEffects(cbId, chatId, messageId, parts, cache);
      Edits(effs) ==> effs[1].EditMedia? && effs[1].photo in ImagesFor(cache[CacheKey(parts[4])], parts[1], parts[2])
  {
    var effs := PagerEffects(cbId, chatId, messageId, parts, cache);
    var shown := PagerShown(cbId, chatId, messageId, parts, cache);
    if shown {
      assert Edits(effs);
    } else {
      NoEditIn(effs);
    }
  }

  /** The pager edits the photo exactly when the token is well formed, the
      entry is cached and the chosen list is not empty; every other
      outcome holds no edit at all. */
  lemma PagerShown(cbId: string, chatId: int, messageId: int, parts: seq<string>, cache: Cache) returns (shown: bool)
    ensures shown <==> (|parts| == 5 && ParseInt(parts[3]).Some? && CacheKey(parts[4]) in cache
                        && ImagesFor(cache[CacheKey(parts[4])], parts[1], parts[2]) != [])
    ensures var effs := PagerEffects(cbId, chatId, messageId, parts, cache);
      shown ==> |effs| == 3 && effs[1].EditMedia? && effs[1].photo in ImagesFor(cache[CacheKey(parts[4])], parts[1], parts[2])
    ensures var effs := PagerEffects(cbId, chatId, messageId, parts, cache);
      !shown ==> forall i :: 0 <= i < |effs| ==> !effs[i].EditCaption? && !effs[i].EditMedia?
  {
    shown := false;
    if |parts| == 5 && ParseInt(parts[3]).Some? {
      var key := CacheKey(parts[4]);
      if key in cache {
        var images := ImagesFor(cache[key], parts[1], parts[2]);
        if images != [] {
          var n := Clamp(ParseInt(parts[3]).value, |images|);
          assert PagerEffects(cbId, chatId, messageId, parts, cache)
            == [CacheGet(key), EditMedia(chatId, messageId, images[n], PagerKeyboard(parts[1], parts[2], n, |images|, parts[4])), Answer(cbId, None, false)];
          shown := true;
        }
      }
    }
  }

  /** A run of effects without an edit does not edit. */
  lemma NoEditIn(effs: seq<Effect>)
    requires forall i :: 0 <= i < |effs| ==> !effs[i].EditCaption? && !effs[i].EditMedia?
    ensures !Edits(effs)
  {
  }

  /** A malformed pager token is never fatal: the pager answers with an
      alert and edits nothing. */
  lemma MalformedNavAlerts(cbId: string, chatId: int, messageId: int, data: string, cache: Cache)
    requires Action(data) == "nav" && CacheKey(MediaIdOf(data)) in cache
    requires |Parts(data)| != 5 || ParseInt(Parts(data)[3]).None?
    ensures var o := CallbackOutcome(cbId, chatId, messageId, Some(data), cache);
      o == Outcome([CacheGet(CacheKey(MediaIdOf(data))), Answer(cbId, Some(CallbackFailed), true)], false)
      && !Edits(o.effects)
  {
  }

  /** Presses with an action the handler does not know, and `back` to
      anywhere but `main`, only read the cache. */
  lemma UnknownActionOnlyReads(cbId: string, chatId: int, messageId: int, data: string, cache: Cache)
    requires var a := Action(data);
      a != "noop" && a != "view" && a != "nav" && a != "details"
      && (a == "back" ==> |Parts(data)| >= 2 && Parts(data)[1] != "main")
    ensures var key := CacheKey(MediaIdOf(data));
      var o := CallbackOutcome(cbId, chatId, messageId, Some(data), cache);
      !o.raised && o.effects == [CacheGet(key)] + (if key in cache then [] else [Answer(cbId, Some(SessionExpired), true)])
  {
  }

  // ---------------------------------------------------------------------
  // The two handlers together
  // ---------------------------------------------------------------------

  /** Every button of the main menu for a cached record finds that
      record and edits the message. */
  lemma MenuButtonsHit(cache: Cache, id: string, cbId: string, chatId: int, messageId: int, i: nat, j: nat)
    requires ':' !in id && CacheKey(id) in cache
    requires i < 2 && j < |MainMenuKeyboard(id)[i]|
    ensures var o := CallbackOutcome(cbId, chatId, messageId, Some(MainMenuKeyboard(id)[i][j].callbackData), cache);
      !o.raised && Edits(o.effects)
  {
    if i == 0 {
      var kind := if j == 0 then "posters" else "backdrops";
      ViewDispatch(cbId, chatId, messageId, kind, id, cache);
      var o := CallbackOutcome(cbId, chatId, messageId, Some(Encode(View(kind, id))), cache);
      assert o.effects[1].EditCaption?;
    } else {
      DetailsDispatch(cbId, chatId, messageId, id, cache);
      var o := CallbackOutcome(cbId, chatId, messageId, Some(Encode(Details(id))), cache);
      assert o.effects[1].EditCaption?;
    }
  }

  /** After a found search, every button of the main menu it sent finds
      the stored record: none of them meets an expired session, and each
      edits the message. */
  lemma MenuButtonsFindStoredRecord(cache: Cache, chatId: int, text: Option<string>, response: SearchResponse,
                                    cbId: string, messageId: int, i: nat, j: nat)
    requires IsSearch(Strip(text.GetOr(""))) && Found(response)
    requires ':' !in MenuId(response.body.value)
    requires i < 2 && j < |MainMenuKeyboard(MenuId(response.body.value))[i]|
    ensures var after := Stored(cache, MessageEffects(chatId, text, response));
      var button := MainMenuKeyboard(MenuId(response.body.value))[i][j];
      var o := CallbackOutcome(cbId, chatId, messageId, Some(button.callbackData), after);
      !o.raised && Edits(o.effects)
  {
    var id := MenuId(response.body.value);
    FoundSearchStores(cache, chatId, text, response);
    MenuButtonsHit(cache[CacheKey(id) := response.body.value], id, cbId, chatId, messageId, i, j);
  }
}
