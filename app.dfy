/** The session logic of the application shell: the error classifier, the
    history list, the theme, and the generation run that feeds the streamed
    fragments into the displayed document. */
module App {
  import opened Types
  import opened Text
  import GeminiService

  // ---------------------------------------------------------------------
  // Error classification
  // ---------------------------------------------------------------------

  /** The error panel: a title and a message. */
  datatype AppError = AppError(title: string, message: string)

  const INVALID_KEY: AppError := AppError("Invalid API Key",
    "Please ensure your API_KEY is configured correctly. You may need to generate a new key from Google AI Studio.")
  const QUOTA_EXCEEDED: AppError := AppError("API Quota Exceeded",
    "You've reached your request limit. Please check your Google AI Studio account for quota details and billing.")
  const PROMPT_BLOCKED: AppError := AppError("Prompt Blocked",
    "Your input may have violated the safety policy. Please revise your idea or features and try again.")
  const NETWORK_ERROR: AppError := AppError("Network Error",
    "Could not connect to the AI service. Please check your internet connection and try again.")
  const SERVICE_UNAVAILABLE: AppError := AppError("Service Unavailable",
    "The AI service is temporarily unavailable. This is likely a temporary issue. Please try again in a few moments.")
  const UNEXPECTED_TITLE: string := "An Unexpected Error Occurred"
  const GENERIC_MESSAGE: string := "Something went wrong. Please check the console for details and try again."

  /** The `catch` block of `handleGeneratePrd`: an `Error` is classified by
      the first group of words its lower-cased message contains, and falls
      back to its own, unchanged message; any other thrown value gets the
      generic message. */
  function ClassifyError(e: Thrown): (r: AppError)
    ensures e.OtherValue? ==> r == AppError(UNEXPECTED_TITLE, GENERIC_MESSAGE)
    ensures e.ErrorValue? && r.title == UNEXPECTED_TITLE ==> r.message == e.message
    ensures r.title == UNEXPECTED_TITLE || r in {INVALID_KEY, QUOTA_EXCEEDED, PROMPT_BLOCKED, NETWORK_ERROR, SERVICE_UNAVAILABLE}
  {
    match e
    case OtherValue => AppError(UNEXPECTED_TITLE, GENERIC_MESSAGE)
    case ErrorValue(m) =>
      var s := ToLower(m);
      if Contains(s, "api key") || Contains(s, "permission denied") then INVALID_KEY
      else if Contains(s, "quota") then QUOTA_EXCEEDED
      else if Contains(s, "safety") || Contains(s, "blocked") then PROMPT_BLOCKED
      else if Contains(s, "fetch failed") || Contains(s, "network") then NETWORK_ERROR
      else if Contains(s, "server error") || Contains(s, "500") || Contains(s, "503") then SERVICE_UNAVAILABLE
      else AppError(UNEXPECTED_TITLE, m)
  }

  /** The panel for the value the run ended with, if it threw. */
  function Reported(thrown: Option<Thrown>): (r: Option<AppError>)
    ensures r.None? <==> thrown.None?
    ensures thrown.Some? ==> r == Some(ClassifyError(thrown.value))
  {
    if thrown.Some? then Some(ClassifyError(thrown.value)) else None
  }

  /** A row of the classification table: the words that select a panel. */
  datatype ErrorRule = ErrorRule(words: seq<string>, error: AppError)

  /** The classifier as a table, in order of precedence. */
  const ERROR_RULES: seq<ErrorRule> := [
    ErrorRule(["api key", "permission denied"], INVALID_KEY),
    ErrorRule(["quota"], QUOTA_EXCEEDED),
    ErrorRule(["safety", "blocked"], PROMPT_BLOCKED),
    ErrorRule(["fetch failed", "network"], NETWORK_ERROR),
    ErrorRule(["server error", "500", "503"], SERVICE_UNAVAILABLE)
  ]

  /** The text contains one of the words. */
  predicate MentionsAny(s: string, words: seq<string>) {
    |words| > 0 && (Contains(s, words[0]) || MentionsAny(s, words[1..]))
  }

  /** The text contains one of the rule's words. */
  predicate RuleMatches(rule: ErrorRule, s: string) {
    MentionsAny(s, rule.words)
  }

  /** The position of the first rule from `start` on that matches. */
  function FirstMatch(rules: seq<ErrorRule>, s: string, start: nat): (r: Option<nat>)
    requires start <= |rules|
    ensures r.Some? ==> start <= r.value < |rules| && RuleMatches(rules[r.value], s)
    ensures r.Some? ==> forall j :: start <= j < r.value ==> !RuleMatches(rules[j], s)
    ensures r.None? ==> forall j :: start <= j < |rules| ==> !RuleMatches(rules[j], s)
    decreases |rules| - start
  {
    if start == |rules| then None
    else if RuleMatches(rules[start], s) then Some(start)
    else FirstMatch(rules, s, start + 1)
  }

  /** The table's verdict on an error message: the panel of the first rule
      that matches the lower-cased message, or the message itself. */
  function ByTable(m: string): AppError {
    var k := FirstMatch(ERROR_RULES, ToLower(m), 0);
    if k.Some? then ERROR_RULES[k.value].error else AppError(UNEXPECTED_TITLE, m)
  }

  /** Matching a list of one, two or three words. */
  lemma MentionsFew(s: string, a: string, b: string, c: string)
    ensures MentionsAny(s, [a]) <==> Contains(s, a)
    ensures MentionsAny(s, [a, b]) <==> Contains(s, a) || Contains(s, b)
    ensures MentionsAny(s, [a, b, c]) <==> Contains(s, a) || Contains(s, b) || Contains(s, c)
  {
    assert [a][1..] == [] && [b][1..] == [] && [c][1..] == [];
    assert [a, b][1..] == [b] && [b, c][1..] == [c];
    assert [a, b, c][1..] == [b, c];
    assert MentionsAny(s, [b, c]) <==> Contains(s, b) || MentionsAny(s, [c]);
  }

  /** The chain of `if`s is the table read top to bottom. */
  lemma ClassifyFollowsTable(m: string)
    ensures ClassifyError(ErrorValue(m)) == ByTable(m)
  {
    var s := ToLower(m);
    MentionsFew(s, "api key", "permission denied", "");
    MentionsFew(s, "quota", "", "");
    MentionsFew(s, "safety", "blocked", "");
    MentionsFew(s, "fetch failed", "network", "");
    MentionsFew(s, "server error", "500", "503");
    var rs := ERROR_RULES;
    if Contains(s, "api key") || Contains(s, "permission denied") {
      assert FirstMatch(rs, s, 0) == Some(0);
    } else if Contains(s, "quota") {
      assert FirstMatch(rs, s, 1) == Some(1);
    } else if Contains(s, "safety") || Contains(s, "blocked") {
      assert FirstMatch(rs, s, 2) == Some(2);
      assert FirstMatch(rs, s, 0) == FirstMatch(rs, s, 2);
    } else if Contains(s, "fetch failed") || Contains(s, "network") {
      assert FirstMatch(rs, s, 3) == Some(3);
      assert FirstMatch(rs, s, 1) == FirstMatch(rs, s, 3);
    } else if Contains(s, "server error") || Contains(s, "500") || Contains(s, "503") {
      assert FirstMatch(rs, s, 4) == Some(4);
      assert FirstMatch(rs, s, 2) == FirstMatch(rs, s, 4);
    } else {
      assert FirstMatch(rs, s, 4) == None;
      assert FirstMatch(rs, s, 2) == None;
    }
  }

  /** First match wins: a message that mentions the API key, in any
      capitalisation, is reported as a key problem whatever else it mentions,
      for instance a network failure. */
  lemma KeyProblemWins(m: string, w: string)
    requires Contains(m, w) && ToLower(w) == "api key"
    ensures ClassifyError(ErrorValue(m)) == INVALID_KEY
  {
    ContainsLowered(m, w);
  }

  /** Only the lower-cased message is consulted, so messages that differ in
      case get the same panel, unless both fall through, in which case each
      keeps its own wording. */
  lemma ClassifyIgnoresCase(m1: string, m2: string)
    requires ToLower(m1) == ToLower(m2)
    ensures ClassifyError(ErrorValue(m1)).title == ClassifyError(ErrorValue(m2)).title
    ensures ClassifyError(ErrorValue(m1)).title != UNEXPECTED_TITLE ==>
              ClassifyError(ErrorValue(m1)) == ClassifyError(ErrorValue(m2))
  {
  }

  /** A message that mentions none of the words is shown as it was thrown,
      in its original case. */
  lemma {:induction false} UnmatchedMessagePassesThrough(m: string)
    requires forall k :: 0 <= k < |ERROR_RULES| ==> !RuleMatches(ERROR_RULES[k], ToLower(m))
    ensures ClassifyError(ErrorValue(m)) == AppError(UNEXPECTED_TITLE, m)
  {
    ClassifyFollowsTable(m);
    var k := FirstMatch(ERROR_RULES, ToLower(m), 0);
    assert k.None?;
  }

  // ---------------------------------------------------------------------
  // History entries
  // ---------------------------------------------------------------------

  function Min(a: int, b: int): int {
    if a <= b then a else b
  }

  /** The entry title: a short idea is its own title; a longer one is cut at
      40 characters and marked with `...`, so no title is longer than 43
      characters and every title starts with the beginning of the idea. */
  function HistoryTitle(idea: string): (r: string)
    ensures |r| <= 43
    ensures |idea| <= 40 ==> r == idea
    ensures |idea| > 40 ==> |r| == 43 && EndsWith(r, "...")
    ensures r[..Min(|idea|, 40)] == idea[..Min(|idea|, 40)]
  {
    if |idea| > 40 then idea[..40] + "..." else idea
  }

  /** The characters the preview drops: `#`, `*` and the backquote. */
  predicate IsMarkup(c: char) {
    c == '#' || c == '*' || c == '`'
  }

  /** The preview's markup filter: every `#`, `*` and backquote is dropped
      and the other characters are kept in order. */
  function StripMarkup(s: string): (r: string)
    ensures |r| <= |s|
    ensures forall i :: 0 <= i < |r| ==> !IsMarkup(r[i])
  {
    if s == [] then []
    else (if IsMarkup(s[0]) then [] else [s[0]]) + StripMarkup(s[1..])
  }

  /** Stripping deletes the markup rather than replacing it: every other
      character occurs in the result exactly as often as in the input. */
  lemma {:induction false} StripMarkupKeepsCounts(s: string)
    ensures forall c :: !IsMarkup(c) ==> multiset(StripMarkup(s))[c] == multiset(s)[c]
    decreases |s|
  {
    if s != [] {
      StripMarkupKeepsCounts(s[1..]);
      assert s == [s[0]] + s[1..];
      assert multiset(s) == multiset([s[0]]) + multiset(s[1..]);
    }
  }

  /** Stripping works character by character, so it keeps the order of the
      remaining text. */
  lemma {:induction false} StripMarkupAppend(a: string, b: string)
    ensures StripMarkup(a + b) == StripMarkup(a) + StripMarkup(b)
    decreases |a|
  {
    if a == [] {
      assert a + b == b;
    } else {
      assert (a + b)[0] == a[0] && (a + b)[1..] == a[1..] + b;
      StripMarkupAppend(a[1..], b);
    }
  }

  /** A text without markup is left as it is. */
  lemma {:induction false} StripMarkupKeepsPlain(s: string)
    requires forall i :: 0 <= i < |s| ==> !IsMarkup(s[i])
    ensures StripMarkup(s) == s
    decreases |s|
  {
    if s != [] {
      StripMarkupKeepsPlain(s[1..]);
    }
  }

  /** Stripping twice is stripping once. */
  lemma {:induction false} StripMarkupIdempotent(s: string)
    ensures StripMarkup(StripMarkup(s)) == StripMarkup(s)
  {
    StripMarkupKeepsPlain(StripMarkup(s));
  }

  /** The entry preview: the first 100 characters without markup, then `...`. */
  function HistoryPreview(content: string): string {
    StripMarkup(content[..Min(|content|, 100)]) + "..."
  }

  /** A preview is at most 103 characters, always ends with `...`, has no
      markup before it, depends only on the first 100 characters of the
      content, and is those characters plus `...` when they hold no markup. */
  lemma {:induction false} HistoryPreviewShape(content: string)
    ensures |HistoryPreview(content)| <= 103 && EndsWith(HistoryPreview(content), "...")
    ensures forall i :: 0 <= i < |HistoryPreview(content)| - 3 ==> !IsMarkup(HistoryPreview(content)[i])
    ensures (forall i :: 0 <= i < Min(|content|, 100) ==> !IsMarkup(content[i])) ==>
              HistoryPreview(content) == content[..Min(|content|, 100)] + "..."
    ensures HistoryPreview(content) == HistoryPreview(content[..Min(|content|, 100)])
  {
    var p := HistoryPreview(content);
    var head := content[..Min(|content|, 100)];
    var stripped := StripMarkup(head);
    assert p[|p| - 3..] == "...";
    forall i | 0 <= i < |p| - 3 ensures !IsMarkup(p[i]) {
      assert p[i] == stripped[i];
    }
    if forall i :: 0 <= i < Min(|content|, 100) ==> !IsMarkup(content[i]) {
      assert forall i :: 0 <= i < |head| ==> head[i] == content[i];
      StripMarkupKeepsPlain(head);
    }
    assert head[..Min(|head|, 100)] == head;
  }

  /** Whatever the first 100 characters hold, the text before `...` is
      exactly their stripped form: markup is deleted, and every other
      character keeps its place and its count. */
  lemma HistoryPreviewStripsHead(content: string)
    ensures HistoryPreview(content)[..|HistoryPreview(content)| - 3] == StripMarkup(content[..Min(|content|, 100)])
    ensures forall c :: !IsMarkup(c) ==>
              multiset(HistoryPreview(content))[c] == multiset(content[..Min(|content|, 100)] + "...")[c]
  {
    var head := content[..Min(|content|, 100)];
    var stripped := StripMarkup(head);
    assert HistoryPreview(content) == stripped + "...";
    StripMarkupKeepsCounts(head);
    assert multiset(stripped + "...") == multiset(stripped) + multiset("...");
    assert multiset(head + "...") == multiset(head) + multiset("...");
  }

  /** What follows the first 100 characters never reaches the preview. */
  lemma {:induction false} HistoryPreviewIgnoresTail(content: string, more: string)
    requires |content| >= 100
    ensures HistoryPreview(content + more) == HistoryPreview(content)
  {
    assert (content + more)[..100] == content[..100];
  }

  /** `newItem` of `addToHistory`; the random id and the clock reading are
      parameters. */
  function NewHistoryItem(id: string, idea: string, content: string, now: int): (r: PrdHistoryItem)
    ensures r.id == id && r.content == content && r.date == now
    ensures r.title == HistoryTitle(idea) && r.preview == HistoryPreview(content)
    ensures |r.title| <= 43 && |r.preview| <= 103 && EndsWith(r.preview, "...")
  {
    HistoryPreviewShape(content);
    PrdHistoryItem(id, HistoryTitle(idea), content, now, HistoryPreview(content))
  }

  /** The history after `handleDeleteHistoryItem`: every entry with the
      given id is dropped and the others are kept in order. */
  function WithoutId(h: seq<PrdHistoryItem>, id: string): (r: seq<PrdHistoryItem>)
    ensures |r| <= |h|
    ensures forall x :: x in r <==> x in h && x.id != id
  {
    if h == [] then []
    else (if h[0].id == id then [] else [h[0]]) + WithoutId(h[1..], id)
  }

  /** Filtering keeps the relative order: it distributes over concatenation. */
  lemma {:induction false} WithoutIdAppend(a: seq<PrdHistoryItem>, b: seq<PrdHistoryItem>, id: string)
    ensures WithoutId(a + b, id) == WithoutId(a, id) + WithoutId(b, id)
    decreases |a|
  {
    if a == [] {
      assert a + b == b;
    } else {
      assert (a + b)[0] == a[0] && (a + b)[1..] == a[1..] + b;
      WithoutIdAppend(a[1..], b, id);
    }
  }

  /** Deleting an id that no entry carries changes nothing. */
  lemma {:induction false} WithoutAbsentId(h: seq<PrdHistoryItem>, id: string)
    requires forall i :: 0 <= i < |h| ==> h[i].id != id
    ensures WithoutId(h, id) == h
    decreases |h|
  {
    if h != [] {
      WithoutAbsentId(h[1..], id);
    }
  }

  /** Deleting twice is deleting once. */
  lemma {:induction false} WithoutIdIdempotent(h: seq<PrdHistoryItem>, id: string)
    ensures WithoutId(WithoutId(h, id), id) == WithoutId(h, id)
  {
    var r := WithoutId(h, id);
    forall i | 0 <= i < |r| ensures r[i].id != id {
      assert r[i] in r;
    }
    WithoutAbsentId(r, id);
  }

  /** Adding an entry with a fresh id and then deleting that id gives back
      the list as it was. */
  lemma {:induction false} AddThenDelete(h: seq<PrdHistoryItem>, item: PrdHistoryItem)
    requires forall i :: 0 <= i < |h| ==> h[i].id != item.id
    ensures WithoutId([item] + h, item.id) == h
  {
    WithoutIdAppend([item], h, item.id);
    WithoutAbsentId(h, item.id);
    assert [item][1..] == [];
  }

  // ---------------------------------------------------------------------
  // Theme
  // ---------------------------------------------------------------------

  /** The theme a session starts with: the saved value when there is a
      non-empty one, otherwise `'dark'`. The saved value is used as it is. */
  function InitialTheme(saved: Option<string>): (r: string)
    ensures r != ""
    ensures saved.None? || saved.value == "" ==> r == "dark"
    ensures saved.Some? && saved.value != "" ==> r == saved.value
  {
    if saved.Some? && saved.value != "" then saved.value else "dark"
  }

  /** The next theme of `toggleTheme`: light after dark, and dark after
      anything else, so it is always one of the two themes. */
  function ToggledTheme(theme: string): (r: string)
    ensures r == "dark" || r == "light"
    ensures r == "light" <==> theme == "dark"
  {
    if theme == "dark" then "light" else "dark"
  }

  /** On either of the two themes, toggling twice changes nothing. */
  lemma ToggleTwice(theme: string)
    requires theme == "dark" || theme == "light"
    ensures ToggledTheme(ToggledTheme(theme)) == theme
  {
  }

  // ---------------------------------------------------------------------
  // The session
  // ---------------------------------------------------------------------

  class Session {
    /** The prompt template the session's requests are built from. */
    const texts: GeminiService.PromptTexts
    var prdContent: string
    var isLoading: bool
    var error: Option<AppError>
    var theme: string
    var history: seq<PrdHistoryItem>
    var isSidebarOpen: bool

    /** The initial state after mounting: the saved theme, and the saved
        history when it was present and parsed (`None` otherwise). */
    constructor(savedTheme: Option<string>, savedHistory: Option<seq<PrdHistoryItem>>)
      ensures texts == GeminiService.PROMPT_TEXTS
      ensures prdContent == "" && !isLoading && error == None && !isSidebarOpen
      ensures theme == InitialTheme(savedTheme)
      ensures history == (if savedHistory.Some? then savedHistory.value else [])
    {
      texts := GeminiService.PROMPT_TEXTS;
      prdContent := "";
      isLoading := false;
      error := None;
      theme := InitialTheme(savedTheme);
      history := if savedHistory.Some? then savedHistory.value else [];
      isSidebarOpen := false;
    }

    /** `showWelcomeScreen`: nothing is loading, no error is shown and the
        document is empty. */
    predicate ShowWelcomeScreen()
      reads this
    {
      !isLoading && error.None? && prdContent == ""
    }

    /** `toggleTheme`: switches to the next theme and changes nothing else. */
    method ToggleTheme()
      modifies this
      ensures theme == ToggledTheme(old(theme))
      ensures prdContent == old(prdContent) && isLoading == old(isLoading) && error == old(error)
      ensures history == old(history) && isSidebarOpen == old(isSidebarOpen)
    {
      theme := ToggledTheme(theme);
    }

    /** `addToHistory`: the new entry goes in front of the list. */
    method AddToHistory(idea: string, content: string, id: string, now: int)
      modifies this
      ensures history == [NewHistoryItem(id, idea, content, now)] + old(history)
      ensures prdContent == old(prdContent) && isLoading == old(isLoading) && error == old(error)
      ensures theme == old(theme) && isSidebarOpen == old(isSidebarOpen)
    {
      history := [NewHistoryItem(id, idea, content, now)] + history;
    }

    /** `handleDeleteHistoryItem`: removes the entries with the id. */
    method DeleteHistoryItem(id: string)
      modifies this
      ensures history == WithoutId(old(history), id)
      ensures prdContent == old(prdContent) && isLoading == old(isLoading) && error == old(error)
      ensures theme == old(theme) && isSidebarOpen == old(isSidebarOpen)
    {
      history := WithoutId(history, id);
    }

    /** `handleSelectHistoryItem`: shows the entry's document, closes the
        sidebar and clears the error; the list stays as it was. */
    method SelectHistoryItem(item: PrdHistoryItem)
      modifies this
      ensures prdContent == item.content && !isSidebarOpen && error == None
      ensures history == old(history) && theme == old(theme) && isLoading == old(isLoading)
      ensures item.content != "" ==> !ShowWelcomeScreen()
    {
      prdContent := item.content;
      isSidebarOpen := false;
      error := None;
    }

    /** The `for await` loop of `handleGeneratePrd`: every fragment is
        appended to the running text, and the document shows the running text
        after each one. The run is loading with no error throughout, so the
        welcome screen stays hidden, before the first fragment as well. */
    method ShowFragments(fragments: seq<string>) returns (fullResponse: string)
      requires isLoading && error == None && prdContent == ""
      modifies this
      ensures fullResponse == Concat(fragments) && prdContent == fullResponse
      ensures isLoading && error == None && !ShowWelcomeScreen()
      ensures isSidebarOpen == old(isSidebarOpen) && history == old(history) && theme == old(theme)
    {
      fullResponse := "";
      var i := 0;
      while i < |fragments|
        invariant i <= |fragments|
        invariant fullResponse == Concat(fragments[..i]) && prdContent == fullResponse
        invariant isLoading && error == None && !ShowWelcomeScreen() && isSidebarOpen == old(isSidebarOpen)
        invariant history == old(history) && theme == old(theme)
      {
        assert fragments[..i + 1][..i] == fragments[..i];
        fullResponse := fullResponse + fragments[i];
        prdContent := fullResponse;
        i := i + 1;
      }
      assert fragments[..i] == fragments;
    }

    /** What follows the loop: the `if (fullResponse)` after a clean end, the
        `catch` after a thrown one, and the `finally`. */
    method Finish(idea: string, fullResponse: string, thrown: Option<Thrown>, id: string, now: int)
      modifies this
      ensures error == (if thrown.None? then old(error) else Reported(thrown))
      ensures history == (if thrown.None? && fullResponse != "" then [NewHistoryItem(id, idea, fullResponse, now)] + old(history)
                          else old(history))
      ensures !isLoading && prdContent == old(prdContent) && isSidebarOpen == old(isSidebarOpen) && theme == old(theme)
    {
      if thrown.None? {
        if fullResponse != "" {
          AddToHistory(idea, fullResponse, id, now);
        }
      } else {
        error := Reported(thrown);
      }
      isLoading := false;
    }

    /** `handleGeneratePrd`. The run starts from an empty document with the
        sidebar closed, shows the accumulated text after every fragment,
        records a history entry only when the stream ended without an error
        and produced some text, reports a thrown error on the panel (leaving
        the partial text in place) and always ends with loading off. It
        returns the request it sent: none without a key, else the built prompt
        for the model. The key, the upstream chunks and error, the entry's id
        and the time are parameters. */
    method GeneratePrd(formData: PrdInput, apiKey: string, chunks: seq<string>, failure: Option<Thrown>,
                       id: string, now: int)
      returns (sent: Option<GeminiService.Request>)
      modifies this
      ensures sent == (if apiKey == "" then None
                       else Some(GeminiService.Request(GeminiService.MODEL, GeminiService.PromptOf(texts, formData))))
      ensures prdContent == (if apiKey == "" then "" else Concat(chunks))
      ensures error == Reported(GeminiService.StreamFailure(apiKey, failure))
      ensures history == (if error == None && prdContent != "" then [NewHistoryItem(id, formData.idea, prdContent, now)] + old(history)
                          else old(history))
      ensures !isLoading && !isSidebarOpen && theme == old(theme)
      ensures error != None ==> !ShowWelcomeScreen()
    {
      isLoading := true;
      error := None;
      prdContent := "";
      isSidebarOpen := false;
      var fragments, thrown;
      sent, fragments, thrown := GeminiService.GeneratePrdStream(texts, formData, apiKey, chunks, failure);
      var started := history;
      var fullResponse := ShowFragments(fragments);
      assert fullResponse == (if apiKey == "" then "" else Concat(chunks)) by {
        if apiKey != "" {
          ConcatNonEmpty(chunks);
        }
      }
      Finish(formData.idea, fullResponse, thrown, id, now);
      assert prdContent == fullResponse && (error == None <==> thrown.None?);
      assert history == (if thrown.None? && fullResponse != "" then [NewHistoryItem(id, formData.idea, fullResponse, now)] + started
                         else started);
    }
  }
}
