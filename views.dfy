/**
 * What the bot shows: the captions and inline keyboards of the main menu,
 * the language picker, the details page and the single-image pager, as
 * pure functions of the cached record and the button that was pressed.
 */
module Views {
  import opened Wrappers
  import opened PyDict
  import opened Json
  import opened Text
  import opened Sorting
  import opened Tokens
  import opened Media
  import TelegramBot

  datatype Button = Button(text: string, callbackData: string)

  /** Rows of buttons, as `inline_keyboard` lays them out. */
  type Keyboard = seq<seq<Button>>

  const PostersLabel := "\U{1F5BC}\U{FE0F} View Posters"
  const BackdropsLabel := "\U{1F3DE}\U{FE0F} View Backdrops"
  const DetailsLabel := "\U{2139}\U{FE0F} Full Details"
  const BackToMainLabel := "\U{00AB} Back to Main Menu"
  const BackToLanguagesLabel := "\U{00AB} Back to Languages"
  const PrevLabel := "\U{2B05}\U{FE0F} Prev"
  const NextLabel := "Next \U{27A1}\U{FE0F}"

  /** Telegram captions are capped at 1024 characters; the plot is cut to 800. */
  const PlotLimit := 800

  // ---------------------------------------------------------------------
  // Main menu: send_main_menu and the back:main action
  // ---------------------------------------------------------------------

  function MainMenuCaption(r: MediaRecord): string {
    "\U{1F3AC} *" + r.title.GetOr("N/A") + "* (" + r.year.GetOr("N/A") + ")\n\n"
      + Take(r.plot.GetOr("No summary available."), PlotLimit)
  }

  function MainMenuKeyboard(id: string): Keyboard {
    [[Button(PostersLabel, Encode(View("posters", id))), Button(BackdropsLabel, Encode(View("backdrops", id)))],
     [Button(DetailsLabel, Encode(Details(id)))]]
  }

  /** The caption ends with the plot, cut to its first 800 characters. */
  lemma MainMenuCaptionPlot(r: MediaRecord)
    ensures var c := MainMenuCaption(r);
      var plot := r.plot.GetOr("No summary available.");
      var p := Take(plot, PlotLimit);
      |p| <= PlotLimit && p == plot[..|p|] && (|plot| <= PlotLimit ==> p == plot)
      && |p| <= |c| && c[|c| - |p|..] == p
  {
  }

  /** The menu has a row of the two gallery buttons and a row with the
      details button, and each button decodes to the action it names. */
  lemma MainMenuTargets(id: string)
    requires ':' !in id
    ensures var kb := MainMenuKeyboard(id);
      |kb| == 2 && |kb[0]| == 2 && |kb[1]| == 1
      && Decode(kb[0][0].callbackData) == Some(View("posters", id))
      && Decode(kb[0][1].callbackData) == Some(View("backdrops", id))
      && Decode(kb[1][0].callbackData) == Some(Details(id))
  {
    DecodeEncode(View("posters", id));
    DecodeEncode(View("backdrops", id));
    DecodeEncode(Details(id));
  }

  // ---------------------------------------------------------------------
  // Language picker: the view action
  // ---------------------------------------------------------------------

  function LanguageLabel(lang: string): string {
    if |lang| == 2 then Upper(lang) else "No Language"
  }

  /** One language: its label, the number of images, a pager token for the
      first image. */
  function LanguageButton(r: MediaRecord, kind: string, lang: string, id: string): Button {
    Button(LanguageLabel(lang) + " (" + NatToString(|ImagesFor(r, kind, lang)|) + ")", Encode(Nav(kind, lang, 0, id)))
  }

  function LanguageRows(r: MediaRecord, kind: string, langs: seq<string>, id: string): Keyboard
    decreases |langs|
  {
    if langs == [] then []
    else LanguageRows(r, kind, langs[..|langs| - 1], id) + [[LanguageButton(r, kind, langs[|langs| - 1], id)]]
  }

  function BackToMainRow(id: string): seq<Button> {
    [Button(BackToMainLabel, Encode(BackMain(id)))]
  }

  function LanguageKeyboard(r: MediaRecord, kind: string, id: string): Keyboard {
    LanguageRows(r, kind, Sort(Languages(r, kind)), id) + [BackToMainRow(id)]
  }

  function LanguageCaption(r: MediaRecord, kind: string): string {
    "Select a language for *" + r.title.GetOr("None") + "* " + Capitalize(kind) + ":"
  }

  lemma {:induction false} LanguageRowsShape(r: MediaRecord, kind: string, langs: seq<string>, id: string)
    ensures |LanguageRows(r, kind, langs, id)| == |langs|
    ensures forall i :: 0 <= i < |langs| ==> LanguageRows(r, kind, langs, id)[i] == [LanguageButton(r, kind, langs[i], id)]
    decreases |langs|
  {
    if langs != [] {
      var init := langs[..|langs| - 1];
      LanguageRowsShape(r, kind, init, id);
      assert forall i :: 0 <= i < |init| ==> init[i] == langs[i];
    }
  }

  /** One row per language of the kind, each language once, in sorted
      order, then the row back to the main menu. */
  lemma LanguagePickerShape(r: MediaRecord, kind: string, id: string)
    ensures var kb := LanguageKeyboard(r, kind, id);
      var langs := Sort(Languages(r, kind));
      Sorted(langs) && multiset(langs) == multiset(Languages(r, kind))
      && |kb| == |langs| + 1
      && (forall i :: 0 <= i < |langs| ==> kb[i] == [LanguageButton(r, kind, langs[i], id)])
      && kb[|langs|] == BackToMainRow(id)
  {
    LanguageRowsShape(r, kind, Sort(Languages(r, kind)), id);
  }

  /** The languages of a kind form a dict, so the picker lists each of
      them exactly once: no two language rows name the same code, and
      every language of the kind has its row. */
  lemma LanguagePickerOnce(r: MediaRecord, kind: string, id: string)
    requires DistinctKeys(ImagesOf(r, kind))
    ensures var langs := Sort(Languages(r, kind));
      NoDup(langs)
      && (forall k :: k in Languages(r, kind) <==> k in langs)
  {
    var langs := Sort(Languages(r, kind));
    KeysDistinct(ImagesOf(r, kind));
    SortKeepsNoDup(Languages(r, kind));
    forall k ensures k in Languages(r, kind) <==> k in langs {
      assert k in multiset(Languages(r, kind)) <==> k in multiset(langs);
    }
  }

  /** A language button opens the pager on the first image of that
      language; its label shows the upper-cased two-letter code, or "No
      Language", and the number of images. */
  lemma LanguageButtonTargets(r: MediaRecord, kind: string, lang: string, id: string)
    requires ':' !in kind && ':' !in lang && ':' !in id
    ensures var b := LanguageButton(r, kind, lang, id);
      Decode(b.callbackData) == Some(Nav(kind, lang, 0, id))
      && b.text == LanguageLabel(lang) + " (" + NatToString(|ImagesFor(r, kind, lang)|) + ")"
      && (|lang| == 2 ==> |LanguageLabel(lang)| == 2 && forall i :: 0 <= i < 2 ==> LanguageLabel(lang)[i] == UpperChar(lang[i]))
  {
    DecodeEncode(Nav(kind, lang, 0, id));
  }

  /** The `for lang in sorted(langs)` loop of the view action. */
  method BuildLanguageKeyboard(r: MediaRecord, kind: string, id: string) returns (buttons: Keyboard)
    ensures buttons == LanguageKeyboard(r, kind, id)
  {
    var langs := Sort(Languages(r, kind));
    buttons := [];
    var i := 0;
    while i < |langs|
      invariant 0 <= i <= |langs|
      invariant buttons == LanguageRows(r, kind, langs[..i], id)
    {
      var lang := langs[i];
      var langName := if |lang| == 2 then Upper(lang) else "No Language";
      var count := |ImagesFor(r, kind, lang)|;
      var button := Button(langName + " (" + NatToString(count) + ")", Encode(Nav(kind, lang, 0, id)));
      assert button == LanguageButton(r, kind, lang, id);
      assert LanguageRows(r, kind, langs[..i + 1], id) == LanguageRows(r, kind, langs[..i], id) + [[button]] by {
        assert langs[..i + 1][..i] == langs[..i] && langs[..i + 1][i] == lang;
      }
      buttons := buttons + [[button]];
      i := i + 1;
    }
    assert langs[..i] == langs;
    buttons := buttons + [BackToMainRow(id)];
  }

  // ---------------------------------------------------------------------
  // Details page
  // ---------------------------------------------------------------------

  function DetailsCaption(r: MediaRecord): string {
    "\U{1F3AC} *" + r.title.GetOr("None") + "* (" + r.year.GetOr("None") + ")\n\n"
      + "*" + r.tagline.GetOr("") + "*\n\n"
      + "\U{1F4D6} *Plot:* " + r.plot.GetOr("N/A") + "\n\n"
      + "\U{2B50} *Rating:* " + r.rating.GetOr("N/A") + " (" + r.votes.GetOr("N/A") + " votes)\n"
      + "\U{1F552} *Runtime:* " + r.runtime.GetOr("N/A") + "\n"
      + "\U{1F3AD} *Genres:* " + r.genres.GetOr("N/A") + "\n\n"
      + "\U{1F517} [View on TMDB](" + r.url.GetOr("None") + ")"
  }

  function DetailsKeyboard(id: string): Keyboard {
    [BackToMainRow(id)]
  }

  // ---------------------------------------------------------------------
  // The single-image pager
  // ---------------------------------------------------------------------

  /** `max(0, min(i, total - 1))`. */
  function Clamp(i: int, total: nat): (n: nat)
    requires total > 0
    ensures n < total
    ensures 0 <= i < total ==> n == i
    ensures i < 0 ==> n == 0
    ensures i >= total ==> n == total - 1
  {
    var m := if i < total - 1 then i else total - 1;
    if m > 0 then m else 0
  }

  /** The `"{n + 1}/{total}"` button, which does nothing. */
  function Indicator(n: nat, total: nat): Button {
    Button(NatToString(n + 1) + "/" + NatToString(total), Encode(Noop))
  }

  function PagerRow(kind: string, lang: string, n: nat, total: nat, id: string): seq<Button> {
    (if n > 0 then [Button(PrevLabel, Encode(Nav(kind, lang, n - 1, id)))] else [])
      + [Indicator(n, total)]
      + (if n + 1 < total then [Button(NextLabel, Encode(Nav(kind, lang, n + 1, id)))] else [])
  }

  function BackToLanguagesRow(kind: string, id: string): seq<Button> {
    [Button(BackToLanguagesLabel, Encode(View(kind, id)))]
  }

  function PagerKeyboard(kind: string, lang: string, n: nat, total: nat, id: string): Keyboard {
    [PagerRow(kind, lang, n, total, id), BackToLanguagesRow(kind, id)]
  }

  /** The image the pager shows and the keyboard under it. */
  datatype PagerPage = PagerPage(image: string, keyboard: Keyboard)

  /** What the pager shows for a requested index, or `None` when there is
      no image to show. */
  function Pager(images: seq<string>, index: int, kind: string, lang: string, id: string): Option<PagerPage> {
    if images == [] then None
    else
      var n := Clamp(index, |images|);
      Some(PagerPage(images[n], PagerKeyboard(kind, lang, n, |images|, id)))
  }

  /** The counter button never looks like a Prev or Next button. */
  lemma IndicatorIsNotArrow(n: nat, total: nat)
    ensures Indicator(n, total).text != PrevLabel && Indicator(n, total).text != NextLabel
  {
    var t := Indicator(n, total).text;
    assert t[0] == NatToString(n + 1)[0];
    assert IsDigit(t[0]);
    assert PrevLabel[0] == '\U{2B05}' && NextLabel[0] == 'N';
  }

  /** The navigation row: Prev (to n - 1) exactly when there is an earlier
      image, the counter, then Next (to n + 1) exactly when there is a
      later one. */
  lemma PagerRowShape(kind: string, lang: string, n: nat, total: nat, id: string)
    requires n < total
    ensures var row := PagerRow(kind, lang, n, total, id);
      var at := if n > 0 then 1 else 0;
      |row| == at + 1 + (if n + 1 < total then 1 else 0)
      && row[at] == Indicator(n, total)
      && (row[0].text == PrevLabel <==> n > 0)
      && (n > 0 ==> row[0].callbackData == Encode(Nav(kind, lang, n - 1, id)))
      && (row[|row| - 1].text == NextLabel <==> n + 1 < total)
      && (n + 1 < total ==> row[|row| - 1].callbackData == Encode(Nav(kind, lang, n + 1, id)))
  {
    IndicatorIsNotArrow(n, total);
    assert PrevLabel != NextLabel by {
      assert PrevLabel[0] != NextLabel[0];
    }
  }

  /** The pager shows an image exactly when the list is not empty, and then
      the one at the clamped index, with the navigation row and one row
      that leads back to the language picker. */
  lemma PagerShows(images: seq<string>, index: int, kind: string, lang: string, id: string)
    ensures Pager(images, index, kind, lang, id).None? <==> images == []
    ensures images != [] ==>
      var n := Clamp(index, |images|);
      var page := Pager(images, index, kind, lang, id).value;
      page.image == images[n]
      && |page.keyboard| == 2 && page.keyboard[0] == PagerRow(kind, lang, n, |images|, id)
      && page.keyboard[1] == [Button(BackToLanguagesLabel, Encode(View(kind, id)))]
  {
  }

  /** Following the Next button of a page shows the following image and
      following Prev shows the one before, so the pager walks the list one
      step at a time. */
  lemma PagerSteps(images: seq<string>, index: int, kind: string, lang: string, id: string)
    requires images != [] && ':' !in kind && ':' !in lang && ':' !in id
    ensures var n := Clamp(index, |images|);
      var row := Pager(images, index, kind, lang, id).value.keyboard[0];
      (n + 1 < |images| ==>
        Decode(row[|row| - 1].callbackData) == Some(Nav(kind, lang, n + 1, id))
        && Pager(images, n + 1, kind, lang, id).value.image == images[n + 1])
      && (n > 0 ==>
        Decode(row[0].callbackData) == Some(Nav(kind, lang, n - 1, id))
        && Pager(images, n - 1, kind, lang, id).value.image == images[n - 1])
  {
    var n := Clamp(index, |images|);
    PagerRowShape(kind, lang, n, |images|, id);
    DecodeEncode(Nav(kind, lang, n + 1, id));
    if n > 0 {
      DecodeEncode(Nav(kind, lang, n - 1, id));
    }
  }

  // ---------------------------------------------------------------------
  // Keyboards as the JSON the client posts
  // ---------------------------------------------------------------------

  function ButtonJson(b: Button): Json {
    JObj([("text", JStr(b.text)), ("callback_data", JStr(b.callbackData))])
  }

  function RowJson(row: seq<Button>): Json {
    JList(seq(|row|, j requires 0 <= j < |row| => ButtonJson(row[j])))
  }

  /** `{"inline_keyboard": [...]}`. */
  function MarkupJson(kb: Keyboard): Json {
    JObj([("inline_keyboard", JList(seq(|kb|, i requires 0 <= i < |kb| => RowJson(kb[i]))))])
  }

  /** The keyboards the bot builds already use `callback_data`, so the
      client's markup normaliser sends them as they are. */
  lemma BotMarkupNeedsNoFixing(kb: Keyboard)
    ensures TelegramBot.FixedMarkup(MarkupJson(kb)) == Ok(MarkupJson(kb))
  {
    var rows := seq(|kb|, i requires 0 <= i < |kb| => RowJson(kb[i]));
    var fields := [("inline_keyboard", JList(rows))];
    assert TelegramBot.IsKeyboard(rows);
    forall i, j | 0 <= i < |rows| && 0 <= j < |rows[i].items|
      ensures TelegramBot.FixButton(rows[i].items[j].fields) == rows[i].items[j].fields
    {
      var btn := rows[i].items[j].fields;
      assert btn == [("text", JStr(kb[i][j].text)), ("callback_data", JStr(kb[i][j].callbackData))];
      assert btn[1..] == [("callback_data", JStr(kb[i][j].callbackData))] && btn[1..][1..] == [];
      assert "text" != "callbackData" && "callback_data" != "callbackData";
      assert "text" != "callback" && "callback_data" != "callback";
      assert !HasKey(btn[1..][1..], "callbackData") && !HasKey(btn[1..][1..], "callback");
      assert !HasKey(btn[1..], "callbackData") && !HasKey(btn[1..], "callback");
      TelegramBot.FixButtonWithoutAliases(btn);
    }
    assert TelegramBot.FixedRows(rows) == rows by {
      forall i | 0 <= i < |rows| ensures TelegramBot.FixedRow(rows[i].items) == rows[i].items {
      }
    }
    SetSame(fields, "inline_keyboard", JList(rows));
  }
}
