/**
 * The string operations the search box uses: String.prototype.trim,
 * toLowerCase (on ASCII letters) and includes.
 */
module Text {

  /** The characters trim removes: ECMAScript WhiteSpace and LineTerminator. */
  predicate IsTrimmable(c: char) {
    || c == '\t' || c == '\n' || c == '\U{000B}' || c == '\U{000C}' || c == '\r'
    || c == ' ' || c == '\U{00A0}' || c == '\U{1680}' || '\U{2000}' <= c <= '\U{200A}'
    || c == '\U{2028}' || c == '\U{2029}' || c == '\U{202F}' || c == '\U{205F}'
    || c == '\U{3000}' || c == '\U{FEFF}'
  }

  /** Drops the leading trimmable characters. */
  function TrimStart(s: string): string {
    if s != [] && IsTrimmable(s[0]) then TrimStart(s[1..]) else s
  }

  /** Drops the trailing trimmable characters. */
  function TrimEnd(s: string): string {
    if s != [] && IsTrimmable(s[|s| - 1]) then TrimEnd(s[..|s| - 1]) else s
  }

  /** What TrimStart leaves is a suffix after trimmable characters only, and it starts with a kept one. */
  lemma {:induction false} TrimStartShape(s: string)
    ensures |TrimStart(s)| <= |s| && TrimStart(s) == s[|s| - |TrimStart(s)|..]
    ensures forall i :: 0 <= i < |s| - |TrimStart(s)| ==> IsTrimmable(s[i])
    ensures TrimStart(s) == [] || !IsTrimmable(TrimStart(s)[0])
    decreases |s|
  {
    if s != [] && IsTrimmable(s[0]) {
      TrimStartShape(s[1..]);
    }
  }

  /** What TrimEnd leaves is a prefix before trimmable characters only, and it ends with a kept one. */
  lemma {:induction false} TrimEndShape(s: string)
    ensures |TrimEnd(s)| <= |s| && TrimEnd(s) == s[..|TrimEnd(s)|]
    ensures forall i :: |TrimEnd(s)| <= i < |s| ==> IsTrimmable(s[i])
    ensures TrimEnd(s) == [] || !IsTrimmable(TrimEnd(s)[|TrimEnd(s)| - 1])
    decreases |s|
  {
    if s != [] && IsTrimmable(s[|s| - 1]) {
      TrimEndShape(s[..|s| - 1]);
    }
  }

  /** `sub` is the slice of `s` that starts at position `i`. */
  predicate OccursAt(s: string, sub: string, i: nat) {
    i + |sub| <= |s| && s[i..i + |sub|] == sub
  }

  /** trim: both ends stripped. */
  function Trim(s: string): (r: string)
    ensures |r| <= |s|
    ensures r == [] || (!IsTrimmable(r[0]) && !IsTrimmable(r[|r| - 1]))
  {
    TrimStartShape(s);
    TrimEndShape(TrimStart(s));
    TrimEnd(TrimStart(s))
  }

  /** What trim leaves is a slice of the input that neither starts nor ends with a trimmable character. */
  lemma TrimSlice(s: string)
    ensures Trim(s) == [] || (!IsTrimmable(Trim(s)[0]) && !IsTrimmable(Trim(s)[|Trim(s)| - 1]))
    ensures exists i: nat :: OccursAt(s, Trim(s), i)
  {
    var t := TrimStart(s);
    TrimStartShape(s);
    TrimEndShape(t);
    assert OccursAt(s, Trim(s), |s| - |t|);
  }

  /** toLowerCase on one character: ASCII capitals map to small letters, the rest is kept. */
  function LowerChar(c: char): (l: char)
    ensures 'A' <= c <= 'Z' ==> 'a' <= l <= 'z' && l as int - c as int == 32
    ensures !('A' <= c <= 'Z') ==> l == c
  {
    if 'A' <= c <= 'Z' then (c as int + 32) as char else c
  }

  /** toLowerCase character by character. */
  function ToLower(s: string): (r: string)
    ensures |r| == |s|
    ensures forall i :: 0 <= i < |s| ==> r[i] == LowerChar(s[i])
  {
    if s == [] then [] else [LowerChar(s[0])] + ToLower(s[1..])
  }

  /** A string without capitals is its own lower case. */
  lemma LowerKept(s: string)
    requires forall i :: 0 <= i < |s| ==> !('A' <= s[i] <= 'Z')
    ensures ToLower(s) == s
  {
  }

  predicate StartsWith(s: string, prefix: string) {
    |prefix| <= |s| && s[..|prefix|] == prefix
  }

  /** includes: `sub` occurs in `s` at some position (the empty string occurs everywhere). */
  predicate Contains(s: string, sub: string)
    ensures Contains(s, sub) ==> |sub| <= |s|
  {
    StartsWith(s, sub) || (s != [] && Contains(s[1..], sub))
  }

  /** Contains holds exactly when `sub` is the slice of `s` at some position. */
  lemma {:induction false} ContainsAt(s: string, sub: string)
    ensures Contains(s, sub) <==> exists i: nat :: OccursAt(s, sub, i)
    decreases |s|
  {
    if Contains(s, sub) {
      if StartsWith(s, sub) {
        assert OccursAt(s, sub, 0);
      } else {
        ContainsAt(s[1..], sub);
        var i: nat :| OccursAt(s[1..], sub, i);
        assert s[1..][i..i + |sub|] == s[i + 1..i + 1 + |sub|];
        assert OccursAt(s, sub, i + 1);
      }
    }
    if exists i: nat :: OccursAt(s, sub, i) {
      var i: nat :| OccursAt(s, sub, i);
      if i > 0 {
        assert s[1..][i - 1..i - 1 + |sub|] == s[i..i + |sub|];
        assert OccursAt(s[1..], sub, i - 1);
        ContainsAt(s[1..], sub);
      } else {
        assert StartsWith(s, sub);
      }
    }
  }

  lemma ContainsEmpty(s: string)
    ensures Contains(s, "")
  {
    assert StartsWith(s, "");
  }

  /** A string whose first and last characters are kept is its own trim. */
  lemma TrimKept(s: string)
    requires s != [] && !IsTrimmable(s[0]) && !IsTrimmable(s[|s| - 1])
    ensures Trim(s) == s
  {
    assert TrimStart(s) == s;
    assert TrimEnd(s) == s;
  }

  /** Nothing longer than `s` occurs in it. */
  lemma {:induction false} ContainsShort(s: string, sub: string)
    requires |s| < |sub|
    ensures !Contains(s, sub)
    decreases |s|
  {
    if s != [] {
      ContainsShort(s[1..], sub);
    }
  }

  /** The normalised form handleSearch compares: trimmed, then lower-cased. */
  function Normalize(s: string): (r: string)
    ensures |r| == |Trim(s)| <= |s|
    ensures forall i :: 0 <= i < |r| ==> !('A' <= r[i] <= 'Z')
  {
    ToLower(Trim(s))
  }

  // The names and the query of the search example over the catalog of js/main.js.

  /** A name without surrounding blanks normalises to its lower case. */
  lemma NormalizeUntrimmed(s: string)
    requires s != [] && !IsTrimmable(s[0]) && !IsTrimmable(s[|s| - 1])
    ensures Normalize(s) == ToLower(s)
  {
    TrimKept(s);
  }

  lemma LowerRoyalty()
    ensures ToLower("Royalty") == "royalty"
  {
    assert "Royalty" == ['R'] + "oyalty";
    LowerKept("oyalty");
  }

  lemma LowerExplorer()
    ensures ToLower("Explorer") == "explorer"
  {
    assert "Explorer" == ['E'] + "xplorer";
    LowerKept("xplorer");
  }

  lemma NormalizeRoyalty()
    ensures Normalize("Royalty") == "royalty"
  {
    NormalizeUntrimmed("Royalty");
    LowerRoyalty();
  }

  lemma NormalizeExplorer()
    ensures Normalize("Explorer") == "explorer"
  {
    NormalizeUntrimmed("Explorer");
    LowerExplorer();
  }

  lemma NormalizeRoy()
    ensures Normalize("roy") == "roy"
  {
    NormalizeUntrimmed("roy");
    LowerKept("roy");
  }

  lemma ExplorerLacksRoy()
    ensures !Contains("explorer", "roy")
  {
    var s := "explorer";
    assert !StartsWith(s, "roy") by { assert s[..3] == "exp"; }
    assert !StartsWith(s[1..], "roy") by { assert s[1..][..3] == "xpl"; }
    assert !StartsWith(s[2..], "roy") by { assert s[2..][..3] == "plo"; }
    assert !StartsWith(s[3..], "roy") by { assert s[3..][..3] == "lor"; }
    assert !StartsWith(s[4..], "roy") by { assert s[4..][..3] == "ore"; }
    assert !StartsWith(s[5..], "roy") by { assert s[5..][..3] == "rer"; }
    ContainsShort(s[6..], "roy");
    assert s[5..][1..] == s[6..];
    assert s[4..][1..] == s[5..];
    assert s[3..][1..] == s[4..];
    assert s[2..][1..] == s[3..];
    assert s[1..][1..] == s[2..];
  }
}
