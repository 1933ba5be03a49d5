/** The search screen of components/SearchInterface.tsx: the submit guard, the
    extraction of grounding sources from a response, the assistant message built
    from it, and the error fallback. The network call is an input outcome. */
module Search {
  import opened Wrappers
  import opened Messages

  const DefaultTitle: string := "Источник"
  const NoAnswerText: string := "Не удалось найти актуальную информацию по вашему запросу."
  const SearchErrorText: string := "Произошла ошибка при выполнении поиска. Попробуйте позже."

  /** The `web` field of a grounding chunk. */
  datatype Web = Web(title: Option<string>, uri: string)

  datatype GroundingChunk = GroundingChunk(web: Option<Web>)

  /** The outcome of the search request: a response with its optional text and the
      optional grounding chunks of its first candidate, or a thrown error. */
  datatype SearchOutcome = Answered(text: Option<string>, chunks: Option<seq<GroundingChunk>>) | Failed

  // ---------------------------------------------------------------------------
  // The submit guard

  /** The characters JavaScript's `String.prototype.trim` removes: white space
      and line terminators. */
  predicate IsWhitespace(c: char) {
    c == '\t' || c == '\n' || c == '\U{B}' || c == '\U{C}' || c == '\r' || c == ' '
    || c == '\U{A0}' || c == '\U{1680}' || ('\U{2000}' <= c <= '\U{200A}')
    || c == '\U{2028}' || c == '\U{2029}' || c == '\U{202F}' || c == '\U{205F}'
    || c == '\U{3000}' || c == '\U{FEFF}'
  }

  ghost predicate Blank(s: string) {
    forall i :: 0 <= i < |s| ==> IsWhitespace(s[i])
  }

  function TrimStart(s: string): string
    decreases |s|
  {
    if |s| > 0 && IsWhitespace(s[0]) then TrimStart(s[1..]) else s
  }

  function TrimEnd(s: string): string
    decreases |s|
  {
    if |s| > 0 && IsWhitespace(s[|s| - 1]) then TrimEnd(s[..|s| - 1]) else s
  }

  function Trim(s: string): string {
    TrimEnd(TrimStart(s))
  }

  /** Trimming the start removes a blank prefix: what is left is a suffix that
      is empty exactly when the whole string is blank. */
  lemma {:induction false} TrimStartSplits(s: string)
    ensures var t := TrimStart(s);
            |t| <= |s| && s[|s| - |t|..] == t && Blank(s[..|s| - |t|])
            && (Blank(s) ==> t == [])
    decreases |s|
  {
    if |s| > 0 && IsWhitespace(s[0]) {
      TrimStartSplits(s[1..]);
      var t := TrimStart(s[1..]);
      assert s[1..][|s| - 1 - |t|..] == s[|s| - |t|..];
      assert s[..|s| - |t|] == [s[0]] + s[1..][..|s| - 1 - |t|];
      if Blank(s) {
        assert forall i :: 0 <= i < |s[1..]| ==> IsWhitespace(s[1..][i]) by {
          forall i | 0 <= i < |s[1..]| ensures IsWhitespace(s[1..][i]) {
            assert s[1..][i] == s[i + 1];
          }
        }
      }
    } else {
      assert s[..0] == [];
    }
  }

  /** Trimming the end empties a string exactly when it is blank. */
  lemma {:induction false} TrimEndBlank(s: string)
    ensures TrimEnd(s) == [] <==> Blank(s)
    decreases |s|
  {
    if |s| > 0 && IsWhitespace(s[|s| - 1]) {
      var init := s[..|s| - 1];
      TrimEndBlank(init);
      if Blank(init) {
        assert forall i :: 0 <= i < |s| ==> IsWhitespace(s[i]) by {
          forall i | 0 <= i < |s| ensures IsWhitespace(s[i]) {
            if i < |s| - 1 { assert s[i] == init[i]; }
          }
        }
      } else {
        var i :| 0 <= i < |init| && !IsWhitespace(init[i]);
        assert s[i] == init[i];
      }
    }
  }

  /** The guard `!inputValue.trim()`: the input trims to nothing exactly when it
      consists of white space only. */
  lemma TrimEmptyIffBlank(s: string)
    ensures Trim(s) == "" <==> Blank(s)
  {
    TrimStartSplits(s);
    var t := TrimStart(s);
    TrimEndBlank(t);
    var n := |s| - |t|;
    if Trim(s) == "" {
      assert Blank(t);
      forall i | 0 <= i < |s| ensures IsWhitespace(s[i]) {
        if i < n {
          assert s[i] == s[..n][i];
        } else {
          assert s[i] == t[i - n];
        }
      }
    }
  }

  // ---------------------------------------------------------------------------
  // Grounding sources

  /** `chunk.web.title || 'Источник'` and the uri copied as it is. */
  function ToSource(w: Web): (r: GroundingSource)
    ensures r.uri == w.uri
    ensures w.title.Some? && w.title.value != "" ==> r.title == w.title.value
    ensures w.title.None? || w.title.value == "" ==> r.title == DefaultTitle
    ensures r.title != ""
  {
    match w.title
    case Some(t) => if t != "" then GroundingSource(t, w.uri) else GroundingSource(DefaultTitle, w.uri)
    case None => GroundingSource(DefaultTitle, w.uri)
  }

  /** The sources of a list of chunks: one per chunk with a `web` field, in order. */
  function SourcesOf(cs: seq<GroundingChunk>): seq<GroundingSource>
    decreases |cs|
  {
    if cs == [] then []
    else (if cs[0].web.Some? then [ToSource(cs[0].web.value)] else []) + SourcesOf(cs[1..])
  }

  /** Extraction distributes over concatenation, so it keeps the chunks' order. */
  lemma {:induction false} SourcesOfAppend(a: seq<GroundingChunk>, b: seq<GroundingChunk>)
    ensures SourcesOf(a + b) == SourcesOf(a) + SourcesOf(b)
    decreases |a|
  {
    if a == [] {
      assert a + b == b;
    } else {
      assert (a + b)[0] == a[0];
      assert (a + b)[1..] == a[1..] + b;
      SourcesOfAppend(a[1..], b);
    }
  }

  /** A single chunk yields its source when it has a `web` field and nothing otherwise. */
  lemma SourcesOfSingle(c: GroundingChunk)
    ensures SourcesOf([c]) == if c.web.Some? then [ToSource(c.web.value)] else []
  {
  }

  /** There are no sources exactly when no chunk has a `web` field. */
  lemma {:induction false} SourcesOfEmpty(cs: seq<GroundingChunk>)
    ensures SourcesOf(cs) == [] <==> forall i :: 0 <= i < |cs| ==> cs[i].web.None?
    decreases |cs|
  {
    if cs != [] {
      SourcesOfEmpty(cs[1..]);
      if forall i :: 0 <= i < |cs[1..]| ==> cs[1..][i].web.None? {
        if cs[0].web.None? {
          forall i | 0 <= i < |cs| ensures cs[i].web.None? {
            if i > 0 { assert cs[i] == cs[1..][i - 1]; }
          }
        }
      } else {
        var i :| 0 <= i < |cs[1..]| && cs[1..][i].web.Some?;
        assert cs[i + 1] == cs[1..][i];
      }
    }
  }

  /** Every source comes from a chunk with a `web` field, and every such chunk
      contributes one. */
  lemma {:induction false} SourcesOfMembers(cs: seq<GroundingChunk>)
    ensures forall s :: s in SourcesOf(cs) <==> exists i :: 0 <= i < |cs| && cs[i].web.Some? && s == ToSource(cs[i].web.value)
    decreases |cs|
  {
    if cs != [] {
      SourcesOfMembers(cs[1..]);
      forall s ensures s in SourcesOf(cs) <==> exists i :: 0 <= i < |cs| && cs[i].web.Some? && s == ToSource(cs[i].web.value)
      {
        if s in SourcesOf(cs[1..]) {
          var i :| 0 <= i < |cs[1..]| && cs[1..][i].web.Some? && s == ToSource(cs[1..][i].web.value);
          assert cs[i + 1] == cs[1..][i];
        }
        if exists i :: 0 <= i < |cs| && cs[i].web.Some? && s == ToSource(cs[i].web.value) {
          var i :| 0 <= i < |cs| && cs[i].web.Some? && s == ToSource(cs[i].web.value);
          if i > 0 { assert cs[1..][i - 1] == cs[i]; }
        }
      }
    }
  }

  /** The `forEach`/`push` loop of the response handler. */
  method ExtractSources(chunks: Option<seq<GroundingChunk>>) returns (sources: seq<GroundingSource>)
    ensures sources == SourcesOf(chunks.GetOr([]))
  {
    sources := [];
    if chunks.Some? {
      var cs := chunks.value;
      var i := 0;
      while i < |cs|
        invariant 0 <= i <= |cs|
        invariant sources == SourcesOf(cs[..i])
      {
        SourcesOfAppend(cs[..i], [cs[i]]);
        SourcesOfSingle(cs[i]);
        assert cs[..i + 1] == cs[..i] + [cs[i]];
        if cs[i].web.Some? {
          sources := sources + [ToSource(cs[i].web.value)];
        }
        i := i + 1;
      }
      assert cs[..i] == cs;
    }
  }

  // ---------------------------------------------------------------------------
  // The assistant's reply

  /** The reply to a response: its text or the fallback, with `sources` present
      only when at least one source was found. */
  function AssistantMessage(text: Option<string>, sources: seq<GroundingSource>): (m: Message)
    ensures m.role == Assistant
    ensures text.Some? && text.value != "" ==> m.content == text.value
    ensures text.None? || text.value == "" ==> m.content == NoAnswerText
    ensures m.sources.None? <==> sources == []
    ensures m.sources.Some? ==> m.sources.value == sources && m.sources.value != []
  {
    Message(Assistant,
            if text.Some? && text.value != "" then text.value else NoAnswerText,
            if |sources| > 0 then Some(sources) else None)
  }

  /** The reply when the request failed. */
  function ErrorMessage(): (m: Message)
    ensures m.role == Assistant && m.content == SearchErrorText && m.sources.None?
  {
    Message(Assistant, SearchErrorText, None)
  }

  /** The message handed to `onNewMessage` for an outcome. */
  function Reply(outcome: SearchOutcome): (m: Message)
    ensures m.role == Assistant
    ensures outcome.Failed? ==> m == ErrorMessage()
    ensures outcome.Answered? ==>
              (m.sources.None? <==>
               forall i :: 0 <= i < |outcome.chunks.GetOr([])| ==> outcome.chunks.GetOr([])[i].web.None?)
    ensures outcome.Answered? ==>
              m.content == (if outcome.text.Some? && outcome.text.value != "" then outcome.text.value else NoAnswerText)
    ensures outcome.Answered? && m.sources.Some? ==> m.sources.value == SourcesOf(outcome.chunks.GetOr([]))
  {
    match outcome
    case Failed => ErrorMessage()
    case Answered(text, chunks) =>
      SourcesOfEmpty(chunks.GetOr([]));
      AssistantMessage(text, SourcesOf(chunks.GetOr([])))
  }

  // ---------------------------------------------------------------------------
  // The form

  class SearchForm {
    var inputValue: string
    var isLoading: bool

    constructor ()
      ensures inputValue == "" && !isLoading
    {
      inputValue := "";
      isLoading := false;
    }

    /** The input's `onChange`. */
    method SetInput(value: string)
      modifies this
      ensures inputValue == value && isLoading == old(isLoading)
    {
      inputValue := value;
    }

    /** The synchronous part of `handleSubmit`: a blank input or a submission while
        loading is ignored; otherwise the text is taken, the input cleared and
        loading begins. */
    method Submit() returns (userText: Option<string>)
      modifies this
      ensures userText.None? <==> Blank(old(inputValue)) || old(isLoading)
      ensures userText.None? ==> inputValue == old(inputValue) && isLoading == old(isLoading)
      ensures userText.Some? ==> userText.value == old(inputValue) && inputValue == "" && isLoading
    {
      TrimEmptyIffBlank(inputValue);
      if Trim(inputValue) == "" || isLoading {
        return None;
      }
      userText := Some(inputValue);
      inputValue := "";
      isLoading := true;
    }

    /** The part of `handleSubmit` after the request settles: `onNewMessage` is
        called once, with the taken text and the reply, and loading ends. */
    method Complete(userText: string, outcome: SearchOutcome) returns (delivered: (string, Message))
      modifies this
      ensures delivered == (userText, Reply(outcome))
      ensures !isLoading && inputValue == old(inputValue)
    {
      match outcome {
        case Failed =>
          delivered := (userText, ErrorMessage());
        case Answered(text, chunks) =>
          var sources := ExtractSources(chunks);
          delivered := (userText, AssistantMessage(text, sources));
      }
      isLoading := false;
    }
  }
}
