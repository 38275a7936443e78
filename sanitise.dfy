/** The file-name sanitiser `sanitiseName`, identical in all three copies of
    the downloader: strip trailing whitespace, then trailing blanks, delete
    the characters `\ / * ? " < > | $`, and turn every `:` into ` - `. */
module Sanitise {
  import opened Text

  // The characters of the regex class used by the source (see the module comment).
  predicate Forbidden(c: char) {
    c == '\\' || c == '/' || c == '*' || c == '?' || c == '"' || c == '<' || c == '>' || c == '|' || c == '$'
  }

  /** The characters `sanitiseName` never leaves in its output. */
  predicate Unsafe(c: char) { Forbidden(c) || c == ':' }

  /** Drops a trailing run of spaces and tabs. */
  function StripBlanks(s: string): (r: string)
    ensures |r| <= |s| && r == s[..|r|]
    ensures r == [] || (r[|r| - 1] != ' ' && r[|r| - 1] != '\t')
    ensures forall i :: |r| <= i < |s| ==> s[i] == ' ' || s[i] == '\t'
  {
    if s != [] && (s[|s| - 1] == ' ' || s[|s| - 1] == '\t') then StripBlanks(s[..|s| - 1]) else s
  }

  /** `re.sub(r"[ \t]+$", "", s)`: without MULTILINE, `$` also matches just
      before a final newline, so blanks there go too. */
  function StripTrailingBlanks(s: string): string {
    if s != [] && s[|s| - 1] == '\n' then StripBlanks(s[..|s| - 1]) + "\n" else StripBlanks(s)
  }

  // The forbidden-character substitution: every forbidden character is deleted.
  function DropForbidden(s: string): (r: string)
    ensures |r| <= |s|
  {
    if s == [] then []
    else (if Forbidden(s[0]) then [] else [s[0]]) + DropForbidden(s[1..])
  }

  /** `re.sub(r"[:]", " - ", s)`. */
  function ExpandColons(s: string): (r: string)
    ensures |r| >= |s|
  {
    if s == [] then []
    else (if s[0] == ':' then " - " else [s[0]]) + ExpandColons(s[1..])
  }

  /** What one character of a blank-free string becomes. */
  function Image(c: char): string {
    if Forbidden(c) then [] else if c == ':' then " - " else [c]
  }

  /** The character-by-character reading of the two substitutions. */
  function ImageAll(s: string): string {
    if s == [] then [] else Image(s[0]) + ImageAll(s[1..])
  }

  /** `sanitiseName(name)`. */
  function SanitiseName(name: string): string {
    ExpandColons(DropForbidden(StripTrailingBlanks(RStrip(name))))
  }

  /** No forbidden character survives the deletion pass. */
  lemma {:induction false} DropForbiddenRemovesAll(s: string)
    ensures forall i :: 0 <= i < |DropForbidden(s)| ==> !Forbidden(DropForbidden(s)[i])
  {
    if s != [] {
      DropForbiddenRemovesAll(s[1..]);
    }
  }

  /** Every other character is kept, as often as it occurs. */
  lemma {:induction false} DropForbiddenKeepsOthers(s: string, c: char)
    requires !Forbidden(c)
    ensures multiset(DropForbidden(s))[c] == multiset(s)[c]
  {
    if s != [] {
      assert s == [s[0]] + s[1..];
      DropForbiddenKeepsOthers(s[1..], c);
    }
  }

  /** The deletion pass changes a string exactly when it has a forbidden character. */
  lemma {:induction false} DropForbiddenIdentity(s: string)
    ensures DropForbidden(s) == s <==> forall i :: 0 <= i < |s| ==> !Forbidden(s[i])
  {
    DropForbiddenRemovesAll(s);
    if s != [] && forall i :: 0 <= i < |s| ==> !Forbidden(s[i]) {
      DropForbiddenIdentity(s[1..]);
      assert s == [s[0]] + s[1..];
    }
  }

  /** No `:` survives the expansion pass. */
  lemma {:induction false} ExpandColonsRemovesAll(s: string)
    ensures forall i :: 0 <= i < |ExpandColons(s)| ==> ExpandColons(s)[i] != ':'
  {
    if s != [] {
      ExpandColonsRemovesAll(s[1..]);
    }
  }

  /** Each `:` grows the string by two characters. */
  lemma {:induction false} ExpandColonsLength(s: string)
    ensures |ExpandColons(s)| == |s| + 2 * multiset(s)[':']
  {
    if s != [] {
      assert s == [s[0]] + s[1..];
      ExpandColonsLength(s[1..]);
    }
  }

  /** The expansion pass changes a string exactly when it has a `:`. */
  lemma {:induction false} ExpandColonsIdentity(s: string)
    ensures ExpandColons(s) == s <==> forall i :: 0 <= i < |s| ==> s[i] != ':'
  {
    ExpandColonsRemovesAll(s);
    if s != [] && forall i :: 0 <= i < |s| ==> s[i] != ':' {
      ExpandColonsIdentity(s[1..]);
      assert s == [s[0]] + s[1..];
    }
  }

  /** The output of `sanitiseName` has no forbidden character and no `:`. */
  lemma SanitiseIsSafe(name: string)
    ensures forall i :: 0 <= i < |SanitiseName(name)| ==> !Unsafe(SanitiseName(name)[i])
  {
    var d := DropForbidden(StripTrailingBlanks(RStrip(name)));
    DropForbiddenRemovesAll(StripTrailingBlanks(RStrip(name)));
    ExpandColonsRemovesAll(d);
    ExpandNoNewForbidden(d);
  }

  /** Expanding colons introduces only spaces and dashes. */
  lemma {:induction false} ExpandNoNewForbidden(s: string)
    requires forall i :: 0 <= i < |s| ==> !Forbidden(s[i])
    ensures forall i :: 0 <= i < |ExpandColons(s)| ==> !Forbidden(ExpandColons(s)[i])
  {
    if s != [] {
      ExpandNoNewForbidden(s[1..]);
    }
  }

  lemma {:induction false} DropForbiddenConcat(a: string, b: string)
    ensures DropForbidden(a + b) == DropForbidden(a) + DropForbidden(b)
  {
    if a != [] {
      assert (a + b)[1..] == a[1..] + b;
      DropForbiddenConcat(a[1..], b);
    } else {
      assert a + b == b;
    }
  }

  lemma {:induction false} ExpandColonsConcat(a: string, b: string)
    ensures ExpandColons(a + b) == ExpandColons(a) + ExpandColons(b)
  {
    if a != [] {
      assert (a + b)[1..] == a[1..] + b;
      ExpandColonsConcat(a[1..], b);
    } else {
      assert a + b == b;
    }
  }

  lemma {:induction false} ImageAllConcat(a: string, b: string)
    ensures ImageAll(a + b) == ImageAll(a) + ImageAll(b)
  {
    if a != [] {
      assert (a + b)[1..] == a[1..] + b;
      ImageAllConcat(a[1..], b);
    } else {
      assert a + b == b;
    }
  }

  /** A string with no forbidden character and no `:` maps to itself. */
  lemma {:induction false} ImageAllPlain(s: string)
    requires forall i :: 0 <= i < |s| ==> !Unsafe(s[i])
    ensures ImageAll(s) == s
  {
    if s != [] {
      ImageAllPlain(s[1..]);
      assert s == [s[0]] + s[1..];
    }
  }

  /** The regex for trailing blanks never fires on the output of `rstrip`. */
  lemma TrailingBlanksPassIsIdle(s: string)
    ensures StripTrailingBlanks(RStrip(s)) == RStrip(s)
  {
  }

  /** The two substitution passes amount to mapping every character through
      `Image` in order: deleting, expanding or keeping it. */
  lemma {:induction false} SubstitutionsAreCharwise(t: string)
    ensures ExpandColons(DropForbidden(t)) == ImageAll(t)
  {
    if t != [] {
      var head := if Forbidden(t[0]) then [] else [t[0]];
      assert DropForbidden(t) == head + DropForbidden(t[1..]);
      ExpandColonsConcat(head, DropForbidden(t[1..]));
      SubstitutionsAreCharwise(t[1..]);
      assert ExpandColons(head) == Image(t[0]);
    }
  }

  /** `sanitiseName` keeps every other character, in order, after dropping
      the trailing whitespace; deletes the forbidden ones and expands `:`. */
  lemma SanitiseIsCharwise(name: string)
    ensures SanitiseName(name) == ImageAll(RStrip(name))
  {
    TrailingBlanksPassIsIdle(name);
    SubstitutionsAreCharwise(RStrip(name));
  }

  /** A name is left unchanged exactly when it has no forbidden character,
      no `:` and no trailing whitespace. */
  lemma {:induction false} SanitiseFixedPoint(name: string)
    ensures SanitiseName(name) == name <==>
      (forall i :: 0 <= i < |name| ==> !Unsafe(name[i])) && (name == [] || !IsSpace(name[|name| - 1]))
  {
    var t := RStrip(name);
    TrailingBlanksPassIsIdle(name);
    DropForbiddenIdentity(t);
    ExpandColonsIdentity(t);
    SanitiseIsSafe(name);
    if (forall i :: 0 <= i < |name| ==> !Unsafe(name[i])) && (name == [] || !IsSpace(name[|name| - 1])) {
      assert t == name;
    }
  }

  /** Sanitising text that ends in a kept character distributes over
      concatenation: the left part is mapped character by character. */
  lemma SanitiseConcat(a: string, b: string)
    requires b != [] && !IsSpace(b[|b| - 1])
    ensures SanitiseName(a + b) == ImageAll(a) + SanitiseName(b)
  {
    assert RStrip(a + b) == a + b;
    SanitiseIsCharwise(a + b);
    SanitiseIsCharwise(b);
    ImageAllConcat(a, b);
  }

  /** The closing bracket of a folder name is kept. */
  lemma SanitiseCloseBracket()
    ensures SanitiseName("]") == "]"
  {
    assert RStrip("]") == "]";
    assert StripTrailingBlanks("]") == "]";
    assert DropForbidden("]") == "]";
    assert ExpandColons("]") == "]";
  }

  /** The empty name and a name made only of forbidden characters both
      sanitise to the empty string. */
  lemma {:induction false} SanitiseAllForbidden(name: string)
    requires forall i :: 0 <= i < |name| ==> Forbidden(name[i])
    ensures SanitiseName(name) == []
  {
    assert RStrip(name) == name;
    SanitiseIsCharwise(name);
    AllForbiddenImage(name);
  }

  lemma {:induction false} AllForbiddenImage(s: string)
    requires forall i :: 0 <= i < |s| ==> Forbidden(s[i])
    ensures ImageAll(s) == []
  {
    if s != [] {
      AllForbiddenImage(s[1..]);
    }
  }

  /** `sanitiseName` is not idempotent: deleting a character can expose
      trailing whitespace that a second pass strips. */
  lemma SanitiseNotIdempotentDelete()
    ensures SanitiseName("a *") == "a " && SanitiseName(SanitiseName("a *")) == "a"
  {
    assert RStrip("a *") == "a *";
    assert StripTrailingBlanks("a *") == "a *";
    assert DropForbidden("*") == [];
    assert DropForbidden(" *") == " ";
    assert DropForbidden("a *") == "a ";
    ExpandColonsIdentity("a ");
    assert RStrip("a ") == "a" by {
      assert "a "[..1] == "a";
    }
    assert StripTrailingBlanks("a") == "a";
    DropForbiddenIdentity("a");
    ExpandColonsIdentity("a");
  }

  /** Nor when a colon at the end is expanded to ` - `. */
  lemma SanitiseNotIdempotentColon()
    ensures SanitiseName("a:") == "a - " && SanitiseName(SanitiseName("a:")) == "a -"
  {
    assert RStrip("a:") == "a:";
    assert StripTrailingBlanks("a:") == "a:";
    assert DropForbidden(":") == ":";
    assert DropForbidden("a:") == "a:";
    assert ExpandColons(":") == " - ";
    assert ExpandColons("a:") == "a - ";
    var t := "a - ";
    assert RStrip(t) == "a -" by {
      assert t[..3] == "a -";
      assert RStrip(t) == RStrip(t[..3]);
    }
    assert StripTrailingBlanks("a -") == "a -";
    assert DropForbidden("-") == "-";
    assert DropForbidden(" -") == " -";
    assert DropForbidden("a -") == "a -";
    assert ExpandColons("-") == "-";
    assert ExpandColons(" -") == " -";
    assert ExpandColons("a -") == "a -";
  }
}
