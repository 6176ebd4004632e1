/** Single-quote escaping for POSIX shells, and a reader for the quoting rules it relies on.

    The same escape is written out three times in the repository: `shell_escape` in
    src/sandbox/lima/wrap.rs, the inline `command.replace('\'', "'\\''")` in
    src/sandbox/container.rs, and the quote-wrapping `shell_escape` helpers of
    src/multiplexer/zellij.rs. All of them are `Escape` (optionally wrapped by `Quote`).

    The reader follows IEEE Std 1003.1-2017 (POSIX.1-2017), Shell Command Language,
    section 2.2.1 "Escape Character (Backslash)" and section 2.2.2 "Single-Quotes". */
module ShellQuote {
  import opened Wrappers
  import opened Text

  /** Every `'` becomes `'\''` (close the quote, an escaped quote, reopen); every other
      character is kept. */
  function Escape(s: string): string
  {
    if s == [] then [] else EscapeChar(s[0]) + Escape(s[1..])
  }

  function EscapeChar(c: char): string
  {
    if c == '\'' then "'\\''" else [c]
  }

  /** `'` + Escape(s) + `'`: the single shell word that stands for `s`. */
  function Quote(s: string): string
  {
    "'" + Escape(s) + "'"
  }

  lemma {:induction false} EscapeAppend(a: string, b: string)
    ensures Escape(a + b) == Escape(a) + Escape(b)
  {
    if a != [] {
      assert (a + b)[0] == a[0];
      assert (a + b)[1..] == a[1..] + b;
      EscapeAppend(a[1..], b);
    } else {
      assert a + b == b;
    }
  }

  /** How many more copies of `c` escaping adds for `q` quotes. */
  function Extra(c: char, q: nat): nat
  {
    if c == '\'' then 2 * q else if c == '\\' then q else 0
  }

  lemma EscapeCharCount(d: char, c: char)
    ensures multiset(EscapeChar(d))[c] == (if d == c then 1 else 0) + (if d == '\'' then Extra(c, 1) else 0)
  {
    if d == '\'' {
      assert multiset(EscapeChar(d)) == multiset{'\'', '\\', '\'', '\''};
    }
  }

  /** Counting characters: each quote becomes three quotes and one backslash, and no
      other character is added or removed. */
  lemma {:induction false} EscapeCounts(s: string, c: char)
    ensures multiset(Escape(s))[c] == multiset(s)[c] + Extra(c, multiset(s)['\''])
  {
    if s != [] {
      var d, t := s[0], s[1..];
      var e0, e1 := EscapeChar(d), Escape(t);
      EscapeCounts(t, c);
      EscapeCharCount(d, c);
      HeadCount(s, c);
      HeadCount(s, '\'');
      ConcatCount(e0, e1, c);
      assert Escape(s) == e0 + e1;
      if d == '\'' {
        assert Extra(c, multiset(t)['\''] + 1) == Extra(c, multiset(t)['\'']) + Extra(c, 1);
      }
    }
  }

  lemma HeadCount<T>(s: seq<T>, c: T)
    requires s != []
    ensures multiset(s)[c] == (if s[0] == c then 1 else 0) + multiset(s[1..])[c]
  {
    assert s == [s[0]] + s[1..];
  }

  lemma ConcatCount<T>(a: seq<T>, b: seq<T>, c: T)
    ensures multiset(a + b)[c] == multiset(a)[c] + multiset(b)[c]
  {
  }

  /** A string without quotes is its own escape: `$`, `$(...)`, `&`, blanks and every
      other shell metacharacter are already literal inside single quotes. */
  lemma {:induction false} EscapeIdentity(s: string)
    requires '\'' !in s
    ensures Escape(s) == s
  {
    if s != [] {
      assert s[0] in s;
      assert '\'' !in s[1..] by {
        assert forall k :: 0 <= k < |s| - 1 ==> s[1..][k] == s[k + 1];
      }
      EscapeIdentity(s[1..]);
      assert s == [s[0]] + s[1..];
    }
  }

  // ---------------------------------------------------------------------------
  // Reading a shell word

  /** Characters that stand for themselves, unquoted, in a shell word. */
  predicate IsPlain(c: char)
  {
    || ('a' <= c <= 'z') || ('A' <= c <= 'Z') || ('0' <= c <= '9')
    || c == '-' || c == '_' || c == '.' || c == '/' || c == ':' || c == '='
    || c == ',' || c == '+' || c == '@' || c == '%'
  }

  function Cons(c: char, r: Option<string>): Option<string>
  {
    match r
    case None => None
    case Some(t) => Some([c] + t)
  }

  function ConsAll(s: string, r: Option<string>): Option<string>
  {
    match r
    case None => None
    case Some(t) => Some(s + t)
  }

  /** The value of the rest of a word, read inside single quotes (`inQuote`) or outside.
      None when the text is not one word built from plain characters, backslash escapes
      and single-quoted parts (an unterminated quote, a trailing backslash, a blank or
      another character with a meaning to the shell). */
  function Read(w: string, inQuote: bool): Option<string>
    decreases |w|
  {
    if w == [] then (if inQuote then None else Some(""))
    else if inQuote then
      // Section 2.2.2: every character up to the next quote is literal.
      if w[0] == '\'' then Read(w[1..], false) else Cons(w[0], Read(w[1..], true))
    else if w[0] == '\'' then Read(w[1..], true)
    else if w[0] == '\\' then
      // Section 2.2.1: a backslash keeps the next character, except that
      // backslash-newline is a line continuation and is removed.
      if |w| == 1 then None
      else if w[1] == '\n' then Read(w[2..], false)
      else Cons(w[1], Read(w[2..], false))
    else if IsPlain(w[0]) then Cons(w[0], Read(w[1..], false))
    else None
  }

  /** The string a shell word stands for, if it is such a word. */
  function Unquote(w: string): Option<string>
  {
    Read(w, false)
  }

  lemma ConsConsAll(c: char, u: string, r: Option<string>)
    ensures Cons(c, ConsAll(u, r)) == ConsAll([c] + u, r)
  {
    if r.Some? {
      assert [c] + (u + r.value) == ([c] + u) + r.value;
    }
  }

  lemma {:induction false} ReadEscaped(s: string, rest: string)
    ensures Read(Escape(s) + "'" + rest, true) == ConsAll(s, Read(rest, false))
  {
    if s == [] {
      assert Escape(s) + "'" + rest == "'" + rest;
      assert ("'" + rest)[1..] == rest;
      if Read(rest, false).Some? {
        assert s + Read(rest, false).value == Read(rest, false).value;
      }
    } else {
      var tail := Escape(s[1..]) + "'" + rest;
      ReadEscaped(s[1..], rest);
      if s[0] == '\'' {
        assert Escape(s) + "'" + rest == "'\\''" + tail;
        ReadEscapedQuote(tail);
        ConsConsAll('\'', s[1..], Read(rest, false));
      } else {
        var w := [s[0]] + tail;
        assert Escape(s) + "'" + rest == w;
        assert w[1..] == tail;
        assert Read(w, true) == Cons(s[0], Read(tail, true));
        ConsConsAll(s[0], s[1..], Read(rest, false));
      }
      assert [s[0]] + s[1..] == s;
    }
  }

  /** Inside quotes, `'\''` is read as one literal quote, and reading goes on inside quotes. */
  lemma ReadEscapedQuote(tail: string)
    ensures Read("'\\''" + tail, true) == Cons('\'', Read(tail, true))
  {
    var w := "'\\''" + tail;
    assert w[1..] == "\\''" + tail;
    assert w[1..][2..] == "'" + tail;
    assert ("'" + tail)[1..] == tail;
    assert Read("'" + tail, false) == Read(tail, true);
    assert Read(w[1..], false) == Cons('\'', Read("'" + tail, false));
  }

  /** Section 2.2.2's reading of a quoted word gives back exactly the quoted string. */
  lemma UnquoteQuote(s: string)
    ensures Unquote(Quote(s)) == Some(s)
  {
    ReadEscaped(s, "");
    assert Quote(s)[1..] == Escape(s) + "'" + "";
    assert s + "" == s;
  }

  /** Quoting never merges two different strings. */
  lemma QuoteInjective(a: string, b: string)
    requires Quote(a) == Quote(b)
    ensures a == b
  {
    UnquoteQuote(a);
    UnquoteQuote(b);
  }

  /** A string with a blank in it is not a single unquoted shell word. */
  lemma {:induction false} BlankIsNotWord(w: string, i: nat)
    requires i < |w| && (w[i] == ' ' || w[i] == '\t')
    requires '\'' !in w && '\\' !in w
    ensures Unquote(w) == None
  {
    ReadUnquotedBlank(w, i);
  }

  lemma {:induction false} ReadUnquotedBlank(w: string, i: nat)
    requires i < |w| && (w[i] == ' ' || w[i] == '\t')
    requires '\'' !in w && '\\' !in w
    ensures Read(w, false) == None
    decreases i
  {
    assert w[0] in w;
    if i > 0 && IsPlain(w[0]) {
      assert w[1..][i - 1] == w[i];
      assert '\'' !in w[1..] && '\\' !in w[1..] by {
        assert forall k :: 0 <= k < |w| - 1 ==> w[1..][k] == w[k + 1];
      }
      ReadUnquotedBlank(w[1..], i - 1);
    }
  }
}
