/** Translation of documentation path templates into router paths
    (src/index.ts:58): `path.replace(/{([a-zA-Z]+)}/g, ':$1')`, written as a
    left-to-right scanner over the characters of the path. */
module PathTemplate {
  import Js

  /** `[a-zA-Z]`: an ASCII letter of either case. */
  predicate IsAsciiLetter(c: char) {
    Js.IsUpper(c) || Js.IsLower(c)
  }

  predicate AllLetters(s: seq<char>) {
    forall i :: 0 <= i < |s| ==> IsAsciiLetter(s[i])
  }

  /** Length of the longest prefix of `s` made of ASCII letters. */
  function LetterRun(s: seq<char>): (n: nat)
    ensures n <= |s|
    ensures AllLetters(s[..n])
    ensures n < |s| ==> !IsAsciiLetter(s[n])
  {
    if s != [] && IsAsciiLetter(s[0]) then 1 + LetterRun(s[1..]) else 0
  }

  /** Where the scanner stands, the pattern `{[a-zA-Z]+}` matches: an opening
      brace, the whole run of letters after it (at least one) and a closing
      brace right after the run. */
  predicate IsPlaceholderStart(s: seq<char>) {
    && s != [] && s[0] == '{'
    && LetterRun(s[1..]) >= 1
    && 1 + LetterRun(s[1..]) < |s|
    && s[1 + LetterRun(s[1..])] == '}'
  }

  /** `s` starts with `{name}` where `name` has exactly `n` letters. */
  predicate PlaceholderOfLength(s: seq<char>, n: nat) {
    && 1 <= n && n + 1 < |s|
    && s[0] == '{' && AllLetters(s[1..n + 1]) && s[n + 1] == '}'
  }

  /** The scanner's test is exactly the regular expression's: a match is an
      opening brace, one or more letters and a closing brace, and the number
      of letters is the letter run after the brace. */
  lemma {:induction false} PlaceholderCharacterization(s: seq<char>, n: nat)
    ensures IsPlaceholderStart(s) ==> PlaceholderOfLength(s, LetterRun(s[1..]))
    ensures PlaceholderOfLength(s, n) ==> IsPlaceholderStart(s) && n == LetterRun(s[1..])
  {
    if IsPlaceholderStart(s) {
      var k := LetterRun(s[1..]);
      assert s[1..][..k] == s[1..k + 1];
    }
    if PlaceholderOfLength(s, n) {
      assert forall i :: 0 <= i < n ==> s[1..][i] == s[1..n + 1][i];
    }
  }

  /** Every `{name}` with an all-letter, non-empty `name` becomes `:name`;
      every other character is kept. */
  function Translate(s: seq<char>): (r: seq<char>)
    ensures |r| <= |s|
    decreases |s|
  {
    if s == [] then []
    else if IsPlaceholderStart(s) then
      var n := LetterRun(s[1..]);
      [':'] + s[1..n + 1] + Translate(s[n + 2..])
    else
      [s[0]] + Translate(s[1..])
  }

  /** No `{name}` placeholder starts anywhere in `s`. */
  predicate PlaceholderFree(s: seq<char>) {
    forall i :: 0 <= i < |s| ==> !IsPlaceholderStart(s[i..])
  }

  /** A path without placeholders is left unchanged, and a path left
      unchanged has no placeholder. */
  lemma {:induction false} TranslateFixedPoints(s: seq<char>)
    ensures Translate(s) == s <==> PlaceholderFree(s)
  {
    if s == [] {
    } else if IsPlaceholderStart(s) {
      var n := LetterRun(s[1..]);
      assert s[0..] == s;
      assert |Translate(s)| < |s| by {
        assert |Translate(s)| == 1 + n + |Translate(s[n + 2..])|;
      }
    } else {
      TranslateFixedPoints(s[1..]);
      assert s[0..] == s;
      forall i | 1 <= i < |s| ensures s[i..] == s[1..][i - 1..] { }
      if PlaceholderFree(s) {
        assert PlaceholderFree(s[1..]) by {
          forall j | 0 <= j < |s[1..]| ensures !IsPlaceholderStart(s[1..][j..]) {
            assert s[1..][j..] == s[j + 1..];
          }
        }
      }
      if Translate(s) == s {
        assert Translate(s[1..]) == s[1..];
      }
    }
  }

  /** The first character of a translation: ':' for a placeholder, otherwise
      the first character of the input. */
  lemma {:induction false} TranslateFirst(r: seq<char>)
    requires r != []
    ensures Translate(r) != []
    ensures Translate(r)[0] == if IsPlaceholderStart(r) then ':' else r[0]
    ensures !IsPlaceholderStart(r) ==> Translate(r) == [r[0]] + Translate(r[1..])
  {
  }

  /** The scanner's step over a placeholder. */
  lemma {:induction false} TranslatePlaceholder(s: seq<char>)
    requires IsPlaceholderStart(s)
    ensures Translate(s) == [':'] + s[1..LetterRun(s[1..]) + 1] + Translate(s[LetterRun(s[1..]) + 2..])
  {
  }

  /** `t` has `k` letters and then a closing brace. */
  predicate LettersThenBrace(t: seq<char>, k: nat) {
    k < |t| && AllLetters(t[..k]) && t[k] == '}'
  }

  /** Letters and a closing brace at the front of a translation were copied
      from the front of the input: translation never produces them itself. */
  lemma {:induction false} TranslatedLettersThenBrace(r: seq<char>, k: nat)
    requires LettersThenBrace(Translate(r), k)
    ensures LettersThenBrace(r, k) && r[..k + 1] == Translate(r)[..k + 1]
    decreases k
  {
    var t := Translate(r);
    LettersThenBraceCopied(r, k);
    var rest := Translate(r[1..]);
    assert t == [r[0]] + rest;
    if k == 0 {
      assert r[..1] == [r[0]] && t[..1] == [t[0]];
    } else {
      assert LettersThenBrace(rest, k - 1) by {
        forall j | 0 <= j < k - 1 ensures IsAsciiLetter(rest[j]) {
          assert rest[j] == t[..k][j + 1];
        }
        assert rest[k - 1] == t[k];
      }
      TranslatedLettersThenBrace(r[1..], k - 1);
      assert r[..k + 1] == [r[0]] + r[1..][..k];
      assert t[..k + 1] == [t[0]] + rest[..k];
      forall j | 0 <= j < k ensures IsAsciiLetter(r[..k][j]) {
        assert r[..k][j] == r[..k + 1][j] && t[..k][j] == t[..k + 1][j];
      }
    }
  }

  /** A translation that starts with a letter or a closing brace did not
      start with a placeholder. */
  lemma {:induction false} LettersThenBraceCopied(r: seq<char>, k: nat)
    requires LettersThenBrace(Translate(r), k)
    ensures r != [] && !IsPlaceholderStart(r)
    ensures Translate(r) == [r[0]] + Translate(r[1..])
  {
    var t := Translate(r);
    assert r != [];
    TranslateFirst(r);
    // the translation of a placeholder starts with ':', neither a letter nor '}'
    assert t[0] == '}' || IsAsciiLetter(t[0]) by {
      if k > 0 { assert t[..k][0] == t[0]; }
    }
  }

  /** The output of the translation holds no placeholder any more. */
  lemma {:induction false} TranslateLeavesNoPlaceholder(s: seq<char>)
    ensures PlaceholderFree(Translate(s))
    decreases |s|
  {
    if s == [] {
    } else if IsPlaceholderStart(s) {
      var n := LetterRun(s[1..]);
      TranslateLeavesNoPlaceholder(s[n + 2..]);
      TranslatePlaceholder(s);
      assert AllLetters(s[1..n + 1]) by {
        assert s[1..n + 1] == s[1..][..n];
      }
      NoBracePrefixKeepsFree([':'] + s[1..n + 1], Translate(s[n + 2..]));
    } else {
      TranslateLeavesNoPlaceholder(s[1..]);
      CopiedCharKeepsFree(s);
    }
  }

  /** Text without an opening brace put in front of placeholder-free text
      starts no placeholder. */
  lemma {:induction false} NoBracePrefixKeepsFree(head: seq<char>, rest: seq<char>)
    requires forall i :: 0 <= i < |head| ==> head[i] != '{'
    requires PlaceholderFree(rest)
    ensures PlaceholderFree(head + rest)
  {
    var r := head + rest;
    forall i | 0 <= i < |r| ensures !IsPlaceholderStart(r[i..]) {
      if i < |head| {
        assert r[i..][0] == head[i];
      } else {
        assert r[i..] == rest[i - |head|..];
      }
    }
  }

  /** Where the scanner copies a character, the translation stays free of
      placeholders. */
  lemma {:induction false} CopiedCharKeepsFree(s: seq<char>)
    requires s != [] && !IsPlaceholderStart(s)
    requires PlaceholderFree(Translate(s[1..]))
    ensures PlaceholderFree(Translate(s))
  {
    var rest := Translate(s[1..]);
    var r := [s[0]] + rest;
    TranslateFirst(s);
    CopiedCharStartsNoPlaceholder(s);
    forall i | 1 <= i < |r| ensures !IsPlaceholderStart(r[i..]) {
      assert r[i..] == rest[i - 1..];
    }
    assert r[0..] == r;
  }

  /** A copied opening brace cannot start a placeholder in the output: the
      letters and the closing brace after it would have been copied from the
      input too, where they would have formed a placeholder. */
  lemma {:induction false} CopiedCharStartsNoPlaceholder(s: seq<char>)
    requires s != [] && !IsPlaceholderStart(s)
    ensures !IsPlaceholderStart([s[0]] + Translate(s[1..]))
  {
    var rest := Translate(s[1..]);
    if IsPlaceholderStart([s[0]] + rest) {
      PlaceholderAfterFirst(s[0], rest);
      var k := LetterRun(rest);
      TranslatedLettersThenBrace(s[1..], k);
      PlaceholderFromLetters(s, k);
      assert false;
    }
  }

  /** A placeholder at `c` followed by `rest`: `c` is the opening brace and
      `rest` starts with the name's letters and the closing brace. */
  lemma {:induction false} PlaceholderAfterFirst(c: char, rest: seq<char>)
    requires IsPlaceholderStart([c] + rest)
    ensures c == '{' && LetterRun(rest) >= 1 && LettersThenBrace(rest, LetterRun(rest))
  {
    var r := [c] + rest;
    var k := LetterRun(rest);
    assert r[1..] == rest;
    PlaceholderCharacterization(r, k);
    assert rest[..k] == r[1..k + 1];
  }

  /** An opening brace followed by one or more letters and a closing brace
      starts a placeholder. */
  lemma {:induction false} PlaceholderFromLetters(s: seq<char>, k: nat)
    requires s != [] && s[0] == '{' && k >= 1 && LettersThenBrace(s[1..], k)
    ensures IsPlaceholderStart(s)
  {
    assert PlaceholderOfLength(s, k) by {
      assert s[1..k + 1] == s[1..][..k];
      assert s[k + 1] == s[1..][k];
    }
    PlaceholderCharacterization(s, k);
  }

  /** Translating twice gives the same path as translating once. */
  lemma {:induction false} TranslateIdempotent(s: seq<char>)
    ensures Translate(Translate(s)) == Translate(s)
  {
    TranslateLeavesNoPlaceholder(s);
    TranslateFixedPoints(Translate(s));
  }

  /** A letter run stops at a non-letter, whatever follows it. */
  lemma {:induction false} LetterRunConcat(a: seq<char>, b: seq<char>)
    requires b == [] || !IsAsciiLetter(b[0])
    ensures LetterRun(a + b) == LetterRun(a)
  {
    if a == [] {
      assert a + b == b;
    } else {
      assert (a + b)[1..] == a[1..] + b;
      if IsAsciiLetter(a[0]) {
        LetterRunConcat(a[1..], b);
      }
    }
  }

  /** Translation can be cut before any character that cannot continue a
      placeholder (neither a letter nor a closing brace): the scanner never
      matches across such a point. */
  lemma {:induction false} TranslateConcat(p: seq<char>, s: seq<char>)
    requires s == [] || (!IsAsciiLetter(s[0]) && s[0] != '}')
    ensures Translate(p + s) == Translate(p) + Translate(s)
    decreases |p|, 1
  {
    if p == [] {
      assert p + s == s;
    } else if IsPlaceholderStart(p) {
      TranslateConcatPlaceholder(p, s);
    } else {
      TranslateConcatCopied(p, s);
    }
  }

  /** The case of `TranslateConcat` where the first character is copied. */
  lemma {:induction false} TranslateConcatCopied(p: seq<char>, s: seq<char>)
    requires p != [] && !IsPlaceholderStart(p)
    requires s == [] || (!IsAsciiLetter(s[0]) && s[0] != '}')
    ensures Translate(p + s) == Translate(p) + Translate(s)
    decreases |p|, 0
  {
    var u := p + s;
    NoPlaceholderStartConcat(p, s);
    assert u != [] && u[0] == p[0];
    assert u[1..] == p[1..] + s;
    assert Translate(u) == [p[0]] + Translate(p[1..] + s);
    assert Translate(p) == [p[0]] + Translate(p[1..]);
    TranslateConcat(p[1..], s);
    assert [p[0]] + (Translate(p[1..]) + Translate(s)) == ([p[0]] + Translate(p[1..])) + Translate(s);
  }

  /** The case of `TranslateConcat` where a placeholder starts the text. */
  lemma {:induction false} TranslateConcatPlaceholder(p: seq<char>, s: seq<char>)
    requires IsPlaceholderStart(p)
    requires s == [] || (!IsAsciiLetter(s[0]) && s[0] != '}')
    ensures Translate(p + s) == Translate(p) + Translate(s)
    decreases |p|, 0
  {
    var u := p + s;
    PlaceholderStartConcat(p, s);
    var n := LetterRun(p[1..]);
    var name, rest := p[1..n + 1], p[n + 2..];
    assert u[1..n + 1] == name by {
      forall i | 0 <= i < n ensures u[1..n + 1][i] == name[i] { }
    }
    assert u[n + 2..] == rest + s;
    TranslateConcat(rest, s);
    TranslatePlaceholder(u);
    TranslatePlaceholder(p);
  }

  /** The negative half of `PlaceholderStartConcat`. */
  lemma {:induction false} NoPlaceholderStartConcat(p: seq<char>, s: seq<char>)
    requires p != [] && !IsPlaceholderStart(p)
    requires s == [] || (!IsAsciiLetter(s[0]) && s[0] != '}')
    ensures !IsPlaceholderStart(p + s)
  {
    PlaceholderStartConcat(p, s);
  }

  /** Whether a placeholder starts at the front does not depend on text after
      a character that cannot continue it. */
  lemma {:induction false} PlaceholderStartConcat(p: seq<char>, s: seq<char>)
    requires p != []
    requires s == [] || (!IsAsciiLetter(s[0]) && s[0] != '}')
    ensures LetterRun((p + s)[1..]) == LetterRun(p[1..])
    ensures IsPlaceholderStart(p + s) <==> IsPlaceholderStart(p)
  {
    var u := p + s;
    assert u[1..] == p[1..] + s;
    LetterRunConcat(p[1..], s);
    var n := LetterRun(p[1..]);
    if 1 + n < |p| {
      assert u[1 + n] == p[1 + n];
    } else if s != [] {
      assert u[1 + n] == s[0];
    }
  }

  /** Each `{name}` with a non-empty, all-letter name is replaced by `:name`,
      and the text around it is translated on its own. */
  lemma {:induction false} TranslateReplacesPlaceholder(p: seq<char>, name: seq<char>, q: seq<char>)
    requires |name| >= 1 && AllLetters(name)
    ensures Translate(p + ['{'] + name + ['}'] + q) == Translate(p) + [':'] + name + Translate(q)
  {
    var s := ['{'] + name + ['}'] + q;
    assert p + ['{'] + name + ['}'] + q == p + s;
    TranslateConcat(p, s);
    assert s[1..] == name + (['}'] + q);
    LetterRunConcat(name, ['}'] + q);
    assert LetterRun(name) == |name|;
    assert IsPlaceholderStart(s);
    assert s[1..|name| + 1] == name;
    assert s[|name| + 2..] == q;
    TranslatePlaceholder(s);
  }

  /** A path without an opening brace has no placeholder. */
  lemma NoBraceIsPlaceholderFree(s: seq<char>)
    requires '{' !in s
    ensures PlaceholderFree(s)
  {
    forall i | 0 <= i < |s| ensures !IsPlaceholderStart(s[i..]) {
      assert s[i..][0] == s[i];
    }
  }

  /** Text without an opening brace is copied unchanged, whatever follows it. */
  lemma {:induction false} TranslateCopiesBraceFree(head: seq<char>, rest: seq<char>)
    requires '{' !in head
    ensures Translate(head + rest) == head + Translate(rest)
  {
    if head == [] {
      assert head + rest == rest;
    } else {
      var u := head + rest;
      assert u[0] == head[0] && head[0] in head;
      assert '{' !in head[1..] by {
        forall i | 0 <= i < |head[1..]| ensures head[1..][i] != '{' {
          assert head[1..][i] == head[i + 1] && head[i + 1] in head;
        }
      }
      assert u[1..] == head[1..] + rest;
      TranslateCopiesBraceFree(head[1..], rest);
      TranslateFirst(u);
      assert !IsPlaceholderStart(u);
      calc {
        Translate(u);
        [u[0]] + Translate(u[1..]);
        [head[0]] + (head[1..] + Translate(rest));
        { assert [head[0]] + head[1..] == head; }
        head + Translate(rest);
      }
    }
  }

  /** A braced name that is empty or holds a character other than an ASCII
      letter is not a placeholder and is kept as it is. */
  lemma {:induction false} TranslateKeepsNonPlaceholder(p: seq<char>, name: seq<char>, q: seq<char>)
    requires '{' !in name && '}' !in name
    requires !(|name| >= 1 && AllLetters(name))
    ensures Translate(p + ['{'] + name + ['}'] + q) == Translate(p) + ['{'] + name + ['}'] + Translate(q)
  {
    var s := ['{'] + name + ['}'] + q;
    assert p + ['{'] + name + ['}'] + q == p + s;
    TranslateConcat(p, s);
    TranslateBracedNonName(name, q);
    assert Translate(p) + (['{'] + name + ['}'] + Translate(q)) == Translate(p) + ['{'] + name + ['}'] + Translate(q);
  }

  /** A `{...}` that is not a placeholder is copied unchanged. */
  lemma {:induction false} TranslateBracedNonName(name: seq<char>, q: seq<char>)
    requires '{' !in name && '}' !in name
    requires !(|name| >= 1 && AllLetters(name))
    ensures Translate(['{'] + name + ['}'] + q) == ['{'] + name + ['}'] + Translate(q)
  {
    var tail := name + ['}'];
    var s := ['{'] + tail + q;
    assert ['{'] + name + ['}'] + q == s;
    BracedNonNameStartsNoPlaceholder(name, q);
    TranslateFirst(s);
    assert s[0] == '{' && s[1..] == tail + q;
    assert '{' !in tail;
    TranslateCopiesBraceFree(tail, q);
    assert ['{'] + (tail + Translate(q)) == ['{'] + name + ['}'] + Translate(q);
  }

  /** `{name}` with an empty name or a non-letter in it does not match. */
  lemma {:induction false} BracedNonNameStartsNoPlaceholder(name: seq<char>, q: seq<char>)
    requires '}' !in name
    requires !(|name| >= 1 && AllLetters(name))
    ensures !IsPlaceholderStart(['{'] + name + ['}'] + q)
  {
    var s := ['{'] + name + ['}'] + q;
    var k := LetterRun(s[1..]);
    assert s[1..][|name|] == '}';
    if k < |name| {
      assert s[1 + k] == name[k] && name[k] in name;
    } else {
      assert k == |name|;
      assert s[1..][..k] == name;
    }
  }

  /** Regrouping a braced name between two texts. */
  lemma {:induction false} Regroup(p: seq<char>, name: seq<char>, q: seq<char>)
    ensures p + ['{'] + name + ['}'] + q == p + (['{'] + name + ['}']) + q
  {
  }

  /** `t` is `name` between braces. */
  lemma {:induction false} Braced(name: seq<char>, t: seq<char>)
    requires |t| == |name| + 2 && t[0] == '{' && t[|t| - 1] == '}' && t[1..|t| - 1] == name
    ensures ['{'] + name + ['}'] == t
  {
    assert t == [t[0]] + t[1..|t| - 1] + [t[|t| - 1]];
  }

  /** After any prefix without a brace (such as `/books/`), `{id}` becomes
      `:id`. */
  lemma {:induction false} SamplePathWithPlaceholder(prefix: seq<char>)
    requires '{' !in prefix
    ensures Translate(prefix + "{id}") == prefix + ":id"
  {
    var empty: seq<char> := [];
    TranslateCopiesBraceFree(prefix, empty);
    assert prefix + empty == prefix;
    var name := "id";
    TranslateReplacesPlaceholder(prefix, name, empty);
    assert Translate(empty) == empty;
    Braced(name, "{id}");
    Regroup(prefix, name, empty);
    var braced := ['{'] + name + ['}'];
    assert prefix + braced + empty == prefix + braced;
    var colon := [':'] + name;
    assert colon == ":id";
    assert prefix + [':'] + name + empty == prefix + colon;
  }

  /** After any prefix without a brace, `{book_id}` is kept as it is, because
      `_` is not a letter. */
  lemma {:induction false} SamplePathWithUnderscore(prefix: seq<char>)
    requires '{' !in prefix
    ensures Translate(prefix + "{book_id}") == prefix + "{book_id}"
  {
    var empty: seq<char> := [];
    TranslateCopiesBraceFree(prefix, empty);
    assert prefix + empty == prefix;
    var name := "book_id";
    assert '{' !in name && '}' !in name && !AllLetters(name) by {
      assert !IsAsciiLetter(name[4]);
    }
    TranslateKeepsNonPlaceholder(prefix, name, empty);
    assert Translate(empty) == empty;
    Braced(name, "{book_id}");
    Regroup(prefix, name, empty);
    var braced := ['{'] + name + ['}'];
    assert prefix + braced + empty == prefix + braced;
  }

  /** Paths in the router's own `:name` form, as the sample book service
      declares them, are left unchanged. */
  lemma {:induction false} SamplePathInRouterForm(path: seq<char>)
    requires path == "/books/:book_id"
    ensures Translate(path) == path
  {
    var empty: seq<char> := [];
    assert '{' !in path;
    TranslateCopiesBraceFree(path, empty);
    assert path + empty == path;
  }
}
