/**
  The playground that shows one editor and one live preview per snippet
  (Frontend/src/components/codes/CodePlayground.jsx): decoding the escaped
  code a snippet arrives with, the per-snippet editor and preview records,
  and the record of the default playground shown when there are no snippets.
*/
module CodePlayground {
  import opened Wrappers
  import opened Text
  import opened Codes

  const DefaultHtml: string := "<h1>Hello World!</h1>\n<p>Start coding here...</p>"
  const DefaultCss: string :=
    "h1 {\n  color: #333;\n  text-align: center;\n}\n\np {\n  color: #666;\n  text-align: center;\n}"
  const DefaultJs: string :=
    "// Add your JavaScript here\nconsole.log(\"Hello from the playground!\");"

  /** The starting record of the default playground, and the fallback for
      every field a snippet leaves empty. */
  const DefaultCodes: Codes := Codes(DefaultHtml, DefaultCss, DefaultJs)

  /** What the simulated AI enhancement appends to the style sheet. */
  const AiEnhancedSuffix: string :=
    "\n\n/* AI Enhanced Styles */\nbody {\n  background: linear-gradient(135deg, #667eea 0%, #764ba2 100%);\n  min-height: 100vh;\n  display: flex;\n  align-items: center;\n  justify-content: center;\n  flex-direction: column;\n}"

  // ---------------------------------------------------------------------
  // Decoding

  /** One global replacement of the two-character escape backslash-`code`
      by `decoded`. Like a global regular-expression replace, it scans left
      to right and a match consumes both characters, so matches never
      overlap. */
  function ReplaceEscape(s: string, code: char, decoded: char): (r: string)
    ensures |r| <= |s|
    ensures '\\' !in s ==> r == s
  {
    if |s| < 2 then s
    else if s[0] == '\\' && s[1] == code then [decoded] + ReplaceEscape(s[2..], code, decoded)
    else [s[0]] + ReplaceEscape(s[1..], code, decoded)
  }

  /** The six replacements of `cleanCode`, in the order the source applies
      them: newline, tab, carriage return, double quote, single quote, and
      only then the escaped backslash. */
  function Unescape(s: string): (r: string)
    ensures |r| <= |s|
    ensures '\\' !in s ==> r == s
  {
    var s1 := ReplaceEscape(s, 'n', '\n');
    var s2 := ReplaceEscape(s1, 't', '\t');
    var s3 := ReplaceEscape(s2, 'r', '\r');
    var s4 := ReplaceEscape(s3, '"', '"');
    var s5 := ReplaceEscape(s4, '\'', '\'');
    ReplaceEscape(s5, '\\', '\\')
  }

  /** `cleanCode`: a missing or empty field becomes `''`; otherwise the
      escapes are decoded and the result is trimmed. It never lengthens its
      input and never leaves whitespace at either end. */
  function CleanCode(code: Option<string>): (r: string)
    ensures code.None? || code == Some("") ==> r == ""
    ensures code.Some? ==> |r| <= |code.value|
    ensures NoEdgeWhitespace(r)
  {
    if code.None? || code.value == "" then "" else Trim(Unescape(code.value))
  }

  /** The characters the five decoding passes before the last one restore. */
  const Decodable: set<char> := {'\n', '\t', '\r', '"', '\''}

  /** The letter written after the backslash when `c` is escaped. */
  function EscapeCode(c: char): char {
    if c == '\n' then 'n'
    else if c == '\t' then 't'
    else if c == '\r' then 'r'
    else c
  }

  /** `s` with every character of `pending` written as backslash followed
      by its escape letter. */
  function EscapeSome(s: string, pending: set<char>): string {
    if s == [] then []
    else (if s[0] in pending then ['\\', EscapeCode(s[0])] else [s[0]]) + EscapeSome(s[1..], pending)
  }

  /** The usual escaping of a string literal for the characters `cleanCode`
      knows: the five of `Decodable` and the backslash itself. */
  function Escape(s: string): string {
    EscapeSome(s, Decodable + {'\\'})
  }

  lemma ReplaceEscapeSkips(a: char, t: string, code: char, decoded: char)
    requires a != '\\'
    ensures ReplaceEscape([a] + t, code, decoded) == [a] + ReplaceEscape(t, code, decoded)
  {
    if |[a] + t| >= 2 {
      assert ([a] + t)[1..] == t;
    }
  }

  lemma {:induction false} EscapeSomeAgrees(s: string, p: set<char>, q: set<char>)
    requires forall k :: 0 <= k < |s| ==> (s[k] in p <==> s[k] in q)
    ensures EscapeSome(s, p) == EscapeSome(s, q)
  {
    if s != [] {
      EscapeSomeAgrees(s[1..], p, q);
    }
  }

  lemma {:induction false} EscapeNothing(s: string)
    ensures EscapeSome(s, {}) == s
  {
    if s != [] {
      EscapeNothing(s[1..]);
    }
  }

  lemma ReplaceEscapeMatch(t: string, code: char, decoded: char)
    ensures ReplaceEscape(['\\', code] + t, code, decoded) == [decoded] + ReplaceEscape(t, code, decoded)
  {
    assert (['\\', code] + t)[2..] == t;
  }

  lemma ReplaceEscapeOther(other: char, t: string, code: char, decoded: char)
    requires other != code && other != '\\'
    ensures ReplaceEscape(['\\', other] + t, code, decoded) == ['\\', other] + ReplaceEscape(t, code, decoded)
  {
    assert (['\\', other] + t)[1..] == [other] + t;
    ReplaceEscapeSkips(other, t, code, decoded);
  }

  /** One decoding pass undoes exactly the escapes of its own character. */
  lemma {:induction false} DecodePass(s: string, pending: set<char>, c: char)
    requires '\\' !in s && pending <= Decodable && c in pending
    ensures ReplaceEscape(EscapeSome(s, pending), EscapeCode(c), c) == EscapeSome(s, pending - {c})
  {
    if s != [] {
      var x := s[0];
      var e := EscapeSome(s[1..], pending);
      DecodePass(s[1..], pending, c);
      if x in pending {
        if x == c {
          ReplaceEscapeMatch(e, EscapeCode(c), c);
        } else {
          ReplaceEscapeOther(EscapeCode(x), e, EscapeCode(c), c);
        }
      } else {
        ReplaceEscapeSkips(x, e, EscapeCode(c), c);
      }
    }
  }

  lemma DecodeStep1(s: string)
    requires '\\' !in s
    ensures ReplaceEscape(EscapeSome(s, Decodable), 'n', '\n') == EscapeSome(s, {'\t', '\r', '"', '\''})
  {
    DecodePass(s, Decodable, '\n');
    assert Decodable - {'\n'} == {'\t', '\r', '"', '\''};
  }

  lemma DecodeStep2(s: string)
    requires '\\' !in s
    ensures ReplaceEscape(EscapeSome(s, {'\t', '\r', '"', '\''}), 't', '\t') == EscapeSome(s, {'\r', '"', '\''})
  {
    DecodePass(s, {'\t', '\r', '"', '\''}, '\t');
    assert {'\t', '\r', '"', '\''} - {'\t'} == {'\r', '"', '\''};
  }

  lemma DecodeStep3(s: string)
    requires '\\' !in s
    ensures ReplaceEscape(EscapeSome(s, {'\r', '"', '\''}), 'r', '\r') == EscapeSome(s, {'"', '\''})
  {
    DecodePass(s, {'\r', '"', '\''}, '\r');
    assert {'\r', '"', '\''} - {'\r'} == {'"', '\''};
  }

  lemma DecodeStep4(s: string)
    requires '\\' !in s
    ensures ReplaceEscape(EscapeSome(s, {'"', '\''}), '"', '"') == EscapeSome(s, {'\''})
  {
    DecodePass(s, {'"', '\''}, '"');
    assert {'"', '\''} - {'"'} == {'\''};
  }

  lemma DecodeStep5(s: string)
    requires '\\' !in s
    ensures ReplaceEscape(EscapeSome(s, {'\''}), '\'', '\'') == EscapeSome(s, {})
  {
    DecodePass(s, {'\''}, '\'');
    assert {'\''} - {'\''} == {};
  }

  /** The six passes undo the escaping of the five decodable characters. */
  lemma UnescapeUndoesEscape(s: string)
    requires '\\' !in s
    ensures Unescape(EscapeSome(s, Decodable)) == s
  {
    DecodeStep1(s);
    DecodeStep2(s);
    DecodeStep3(s);
    DecodeStep4(s);
    DecodeStep5(s);
    EscapeNothing(s);
  }

  /** `cleanCode` undoes the usual escaping of any text without backslashes,
      up to the final trim. */
  lemma CleanCodeUndoesEscape(s: string)
    requires '\\' !in s
    ensures CleanCode(Some(Escape(s))) == Trim(s)
  {
    EscapeSomeAgrees(s, Decodable + {'\\'}, Decodable);
    UnescapeUndoesEscape(s);
    if s != [] {
      assert |Escape(s)| > 0;
    }
  }

  /** Because the escaped backslash is decoded last, an escaped backslash
      followed by the letter n is read as a backslash and a newline: the
      text a-backslash-n-b, escaped, does not come back. */
  lemma EscapedBackslashBeforeLetterIsMisread()
    ensures Escape("a\\nb") == "a\\\\nb"
    ensures CleanCode(Some("a\\\\nb")) == "a\\\nb"
    ensures CleanCode(Some(Escape("a\\nb"))) != Trim("a\\nb")
  {
    EscapeExample();
    CleanCodeMisreads("a\\\\nb", "a\\\nb");
    TrimOfTrimmed("a\\nb");
  }

  /** Stated on parameters so that the verifier does not evaluate the
      decoding passes on the literal text. */
  lemma CleanCodeMisreads(x: string, d: string)
    requires x == "a\\\\nb" && d == "a\\\nb"
    ensures CleanCode(Some(x)) == d
  {
    UnescapeMisreads(x, d);
    TrimKeepsMisread(d);
  }

  lemma TrimKeepsMisread(d: string)
    requires d == "a\\\nb"
    ensures Trim(d) == d
  {
    assert d[0] == 'a' && d[|d| - 1] == 'b';
    TrimOfTrimmed(d);
  }

  lemma EscapeExample()
    ensures Escape("a\\nb") == "a\\\\nb"
  {
    var p := Decodable + {'\\'};
    assert "a\\nb"[1..] == "\\nb";
    assert "\\nb"[1..] == "nb";
    assert "nb"[1..] == "b";
    assert EscapeSome("b", p) == "b";
    assert EscapeSome("nb", p) == "nb";
    assert EscapeSome("\\nb", p) == "\\\\nb";
  }

  lemma UnescapeMisreads(x: string, d: string)
    requires x == "a\\\\nb" && d == "a\\\nb"
    ensures Unescape(x) == d
  {
    assert ReplaceEscape("a\\\\nb", 'n', '\n') == "a\\\nb" by {
      ReplaceEscapeSkips('a', "\\\\nb", 'n', '\n');
      assert "\\\\nb"[1..] == "\\nb";
      assert "\\nb"[2..] == "b";
    }
    StaysDecoded('t', '\t');
    StaysDecoded('r', '\r');
    StaysDecoded('"', '"');
    StaysDecoded('\'', '\'');
    StaysDecoded('\\', '\\');
  }

  /** The text a, backslash, newline, b holds no escape any later pass decodes. */
  lemma StaysDecoded(code: char, decoded: char)
    requires code != '\n'
    ensures ReplaceEscape("a\\\nb", code, decoded) == "a\\\nb"
  {
    ReplaceEscapeSkips('a', "\\\nb", code, decoded);
    assert "\\\nb"[1..] == "\nb";
    ReplaceEscapeSkips('\n', "b", code, decoded);
  }

  // ---------------------------------------------------------------------
  // Initial state

  /** `cleanCode(field) || fallback`: the decoded field, or the fallback
      exactly when decoding leaves nothing. */
  function InitialField(field: Option<string>, fallback: string): (r: string)
    requires fallback != ""
    ensures r != ""
    ensures CleanCode(field) != "" ==> r == CleanCode(field)
    ensures CleanCode(field) == "" ==> r == fallback
  {
    var cleaned := CleanCode(field);
    if cleaned != "" then cleaned else fallback
  }

  /** The record a snippet starts with, in the editor and in the preview:
      each field is `InitialField` of the snippet's field, with the default
      playground's field as the fallback. */
  function InitialCodes(snippet: PartialCodes): (r: Codes)
    ensures forall lang :: r.Get(lang) == InitialField(snippet.Get(lang), DefaultCodes.Get(lang))
  {
    Codes(InitialField(snippet.html, DefaultHtml),
          InitialField(snippet.css, DefaultCss),
          InitialField(snippet.js, DefaultJs))
  }

  /** Per language: a snippet field that decodes to some text starts as
      that text, and one that decodes to nothing starts as the default. */
  lemma InitialCodesField(snippet: PartialCodes, lang: Lang)
    ensures InitialCodes(snippet).Get(lang) != ""
    ensures CleanCode(snippet.Get(lang)) != "" ==> InitialCodes(snippet).Get(lang) == CleanCode(snippet.Get(lang))
    ensures CleanCode(snippet.Get(lang)) == "" ==> InitialCodes(snippet).Get(lang) == DefaultCodes.Get(lang)
  {
  }

  /** A snippet without code starts exactly like the default playground. */
  lemma EmptySnippetStartsAsDefault(snippet: PartialCodes)
    requires forall lang :: snippet.Get(lang).None? || snippet.Get(lang) == Some("")
    ensures InitialCodes(snippet) == DefaultCodes
  {
    assert CleanCode(snippet.Get(Html)) == "";
    assert CleanCode(snippet.Get(Css)) == "";
    assert CleanCode(snippet.Get(Js)) == "";
  }

  // ---------------------------------------------------------------------
  // State and handlers

  /** The playground's state: the edited records (`allCodes`), the records
      last sent to the previews (`allPreviewCodes`), and the same pair for
      the default playground. */
  class Playground {
    var allCodes: array<Codes>
    var allPreviewCodes: array<Codes>
    var defaultCode: Codes
    var defaultPreviewCode: Codes

    ghost predicate Valid()
      reads this
    {
      allCodes != allPreviewCodes && allCodes.Length == allPreviewCodes.Length
    }

    /** Every snippet starts from `InitialCodes`, and its preview starts
        equal to its editor. */
    constructor (snippets: seq<PartialCodes>)
      ensures Valid() && fresh(allCodes) && fresh(allPreviewCodes)
      ensures allCodes.Length == |snippets|
      ensures forall i :: 0 <= i < |snippets| ==> allCodes[i] == InitialCodes(snippets[i])
      ensures allPreviewCodes[..] == allCodes[..]
      ensures defaultCode == DefaultCodes && defaultPreviewCode == DefaultCodes
    {
      allCodes := new Codes[|snippets|](i requires 0 <= i < |snippets| => InitialCodes(snippets[i]));
      allPreviewCodes := new Codes[|snippets|](i requires 0 <= i < |snippets| => InitialCodes(snippets[i]));
      defaultCode := DefaultCodes;
      defaultPreviewCode := DefaultCodes;
      new;
      assert allPreviewCodes[..] == allCodes[..];
    }

    /** `handleCodeChange`: only field `lang` of snippet `index` changes. */
    method HandleCodeChange(index: nat, lang: Lang, value: string)
      requires Valid() && index < allCodes.Length
      modifies allCodes
      ensures allCodes[..] == old(allCodes[..])[index := old(allCodes[index]).With(lang, value)]
      ensures allCodes[index].Get(lang) == value
      ensures forall other :: other != lang ==> allCodes[index].Get(other) == old(allCodes[index].Get(other))
      ensures allPreviewCodes[..] == old(allPreviewCodes[..])
    {
      allCodes[index] := allCodes[index].With(lang, value);
    }

    /** `handleDefaultCodeChange`. */
    method HandleDefaultCodeChange(lang: Lang, value: string)
      modifies this`defaultCode
      ensures defaultCode == old(defaultCode).With(lang, value)
    {
      defaultCode := defaultCode.With(lang, value);
    }

    /** `handleRun`: the preview of snippet `index` takes the editor's record;
        every other preview stays. */
    method HandleRun(index: nat)
      requires Valid() && index < allCodes.Length
      modifies allPreviewCodes
      ensures allPreviewCodes[..] == old(allPreviewCodes[..])[index := allCodes[index]]
      ensures allCodes[..] == old(allCodes[..])
    {
      allPreviewCodes[index] := allCodes[index];
    }

    /** `handleDefaultRun`. */
    method HandleDefaultRun()
      modifies this`defaultPreviewCode
      ensures defaultPreviewCode == defaultCode
    {
      defaultPreviewCode := defaultCode;
    }

    /** `handleAI`, the simulated enhancement: the style sheet of snippet
        `index` gets the fixed suffix; its old style sheet is a prefix of
        the new one and its markup and script stay. */
    method HandleAI(index: nat)
      requires Valid() && index < allCodes.Length
      modifies allCodes
      ensures allCodes[..] == old(allCodes[..])[index := old(allCodes[index]).With(Css, old(allCodes[index].css) + AiEnhancedSuffix)]
      ensures old(allCodes[index].css) <= allCodes[index].css
      ensures allCodes[index].html == old(allCodes[index].html) && allCodes[index].js == old(allCodes[index].js)
      ensures allPreviewCodes[..] == old(allPreviewCodes[..])
    {
      var currentCss := allCodes[index].css;
      allCodes[index] := allCodes[index].With(Css, currentCss + AiEnhancedSuffix);
    }

    /** `handleDefaultAI`. */
    method HandleDefaultAI()
      modifies this`defaultCode
      ensures defaultCode == old(defaultCode).With(Css, old(defaultCode.css) + AiEnhancedSuffix)
      ensures old(defaultCode.css) <= defaultCode.css
    {
      defaultCode := defaultCode.With(Css, defaultCode.css + AiEnhancedSuffix);
    }
  }
}
