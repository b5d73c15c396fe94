/** The few Python string operations the scripts apply to operator input:
    `str.strip()`, `str.lower()` and `str.replace("Key.", "")`. */
module Text {

  /** Characters `str.strip()` removes: those for which Python's `str.isspace()` holds. */
  predicate IsSpace(c: char)
  {
    c == ' ' || ('\t' <= c <= '\r') || ('\U{1C}' <= c <= '\U{1F}')
    || c == '\U{85}' || c == '\U{A0}' || c == '\U{1680}' || ('\U{2000}' <= c <= '\U{200A}')
    || c == '\U{2028}' || c == '\U{2029}' || c == '\U{202F}' || c == '\U{205F}' || c == '\U{3000}'
  }

  predicate AllSpace(s: string)
  {
    forall k :: 0 <= k < |s| ==> IsSpace(s[k])
  }

  /** True when `s` neither starts nor ends with whitespace. */
  predicate Trimmed(s: string)
  {
    |s| == 0 || (!IsSpace(s[0]) && !IsSpace(s[|s| - 1]))
  }

  function LStrip(s: string): string
  {
    if |s| > 0 && IsSpace(s[0]) then LStrip(s[1..]) else s
  }

  function RStrip(s: string): string
  {
    if |s| > 0 && IsSpace(s[|s| - 1]) then RStrip(s[..|s| - 1]) else s
  }

  /** Python's `s.strip()`. */
  function Strip(s: string): string
  {
    RStrip(LStrip(s))
  }

  lemma {:induction false} LStripPadded(pre: string, rest: string)
    requires AllSpace(pre)
    requires |rest| == 0 || !IsSpace(rest[0])
    ensures LStrip(pre + rest) == rest
  {
    if |pre| > 0 {
      assert (pre + rest)[1..] == pre[1..] + rest;
      LStripPadded(pre[1..], rest);
    } else {
      assert pre + rest == rest;
    }
  }

  lemma {:induction false} RStripPadded(rest: string, post: string)
    requires AllSpace(post)
    requires |rest| == 0 || !IsSpace(rest[|rest| - 1])
    ensures RStrip(rest + post) == rest
  {
    if |post| > 0 {
      var s := rest + post;
      assert s[..|s| - 1] == rest + post[..|post| - 1];
      RStripPadded(rest, post[..|post| - 1]);
    } else {
      assert rest + post == rest;
    }
  }

  /** Stripping whitespace padding gives back the trimmed text inside it, so
      `Strip` removes exactly the leading and trailing whitespace. */
  lemma StripPadded(pre: string, core: string, post: string)
    requires AllSpace(pre) && AllSpace(post) && Trimmed(core)
    ensures Strip(pre + core + post) == core
  {
    if |core| == 0 {
      var padding := pre + post;
      assert pre + core + post == padding;
      assert AllSpace(padding) by {
        forall k | 0 <= k < |padding| ensures IsSpace(padding[k]) {
          if k < |pre| { assert padding[k] == pre[k]; } else { assert padding[k] == post[k - |pre|]; }
        }
      }
      LStripAllSpace(padding);
    } else {
      assert pre + core + post == pre + (core + post);
      LStripPadded(pre, core + post);
      RStripPadded(core, post);
    }
  }

  lemma {:induction false} LStripAllSpace(s: string)
    requires AllSpace(s)
    ensures LStrip(s) == []
  {
    if |s| > 0 {
      LStripAllSpace(s[1..]);
    }
  }

  lemma {:induction false} LStripTrimmedStart(s: string)
    ensures |LStrip(s)| == 0 || !IsSpace(LStrip(s)[0])
    ensures |LStrip(s)| <= |s|
  {
    if |s| > 0 && IsSpace(s[0]) {
      LStripTrimmedStart(s[1..]);
    }
  }

  lemma {:induction false} RStripKeepsStart(s: string)
    requires |s| == 0 || !IsSpace(s[0])
    ensures |RStrip(s)| == 0 || (!IsSpace(RStrip(s)[0]) && !IsSpace(RStrip(s)[|RStrip(s)| - 1]))
  {
    if |s| > 0 && IsSpace(s[|s| - 1]) {
      RStripKeepsStart(s[..|s| - 1]);
    }
  }

  /** Whatever the input, the stripped text starts and ends with a non-space. */
  lemma StripIsTrimmed(s: string)
    ensures Trimmed(Strip(s))
  {
    LStripTrimmedStart(s);
    RStripKeepsStart(LStrip(s));
  }

  /** `c.lower()` for the ASCII letters; every other character is left as it is. */
  function LowerChar(c: char): (r: char)
    ensures 'A' <= c <= 'Z' ==> 'a' <= r <= 'z' && r as int - c as int == 32
    ensures !('A' <= c <= 'Z') ==> r == c
  {
    if 'A' <= c <= 'Z' then (c as int + 32) as char else c
  }

  /** `s.lower()`, character by character. */
  function Lower(s: string): (r: string)
    ensures |r| == |s|
    ensures forall k :: 0 <= k < |s| ==> r[k] == LowerChar(s[k])
  {
    if |s| == 0 then [] else [LowerChar(s[0])] + Lower(s[1..])
  }

  /** `s.replace("Key.", "")`: every non-overlapping occurrence, scanned left
      to right, removed. */
  function RemoveKeyDot(s: string): (r: string)
    ensures |r| <= |s|
  {
    if |s| >= 4 && s[..4] == "Key." then RemoveKeyDot(s[4..])
    else if |s| == 0 then []
    else [s[0]] + RemoveKeyDot(s[1..])
  }

  lemma {:induction false} RemoveKeyDotNoDot(s: string)
    requires '.' !in s
    ensures RemoveKeyDot(s) == s
  {
    if |s| > 0 {
      if |s| >= 4 {
        assert s[3] != '.';
        assert s[..4] != "Key.";
      }
      assert '.' !in s[1..] by {
        forall k | 0 <= k < |s[1..]| ensures s[1..][k] != '.' { assert s[1..][k] == s[k + 1]; }
      }
      RemoveKeyDotNoDot(s[1..]);
      assert [s[0]] + s[1..] == s;
    }
  }

  /** The text pynput gives a named key, `Key.<name>`, becomes `<name>`. */
  lemma NamedKeyText(name: string)
    requires '.' !in name
    ensures RemoveKeyDot("Key." + name) == name
  {
    var s := "Key." + name;
    assert s[..4] == "Key.";
    assert s[4..] == name;
    RemoveKeyDotNoDot(name);
  }
}
