/** The avatar initials of the profile page. */
module StudentProfile {
  import opened Wrappers

  /** `s.split(" ")`: the pieces between single spaces, empty pieces included. */
  function Split(s: string): (r: seq<string>)
    ensures |r| >= 1
    ensures forall k :: 0 <= k < |r| ==> ' ' !in r[k]
  {
    if |s| == 0 then [""]
    else
      var rest := Split(s[1..]);
      if s[0] == ' ' then [""] + rest else [[s[0]] + rest[0]] + rest[1..]
  }

  /** `pieces.join(" ")`. */
  function Join(pieces: seq<string>): string {
    if |pieces| == 0 then "" else if |pieces| == 1 then pieces[0] else pieces[0] + " " + Join(pieces[1..])
  }

  /** Splitting loses nothing: joining the pieces gives the name back. */
  lemma {:induction false} JoinSplit(s: string)
    ensures Join(Split(s)) == s
  {
    if |s| > 0 {
      var rest := Split(s[1..]);
      JoinSplit(s[1..]);
      if s[0] == ' ' {
        assert Split(s) == [""] + rest;
        assert s == [' '] + s[1..];
      } else {
        var pieces := [[s[0]] + rest[0]] + rest[1..];
        assert Split(s) == pieces;
        if |rest| == 1 {
          assert s == [s[0]] + s[1..];
        } else {
          assert pieces[1..] == rest[1..];
          assert s == [s[0]] + s[1..];
        }
      }
    }
  }

  /** `.map((n) => n[0]).join("")`: the first character of every piece; an empty
      piece gives `undefined`, which `join` renders as nothing. */
  function Heads(pieces: seq<string>): (r: string)
    ensures |r| <= |pieces|
  {
    if |pieces| == 0 then ""
    else (if pieces[0] == "" then "" else [pieces[0][0]]) + Heads(pieces[1..])
  }

  /** The characters that begin a word: a non-space first character or a
      non-space right after a space (`afterSpace` says whether the text before
      `s` ended in a space, or there was none). */
  function WordStarts(s: string, afterSpace: bool): (r: string)
    ensures |r| <= |s|
  {
    if |s| == 0 then ""
    else (if s[0] != ' ' && afterSpace then [s[0]] else "") + WordStarts(s[1..], s[0] == ' ')
  }

  /** The pieces' first characters are exactly the word-start characters. */
  lemma {:induction false} HeadsAreWordStarts(s: string)
    ensures Heads(Split(s)) == WordStarts(s, true)
    ensures Heads(Split(s)[1..]) == WordStarts(s, false)
  {
    if |s| > 0 {
      HeadsAreWordStarts(s[1..]);
      var rest := Split(s[1..]);
      if s[0] != ' ' {
        var pieces := [[s[0]] + rest[0]] + rest[1..];
        assert Split(s) == pieces && pieces[1..] == rest[1..];
      }
    }
  }

  /** `toUpperCase` on the ASCII letters. */
  function UpperChar(c: char): char {
    if 'a' <= c <= 'z' then (c as int - 32) as char else c
  }

  function Upper(s: string): (r: string)
    ensures |r| == |s| && forall k :: 0 <= k < |s| ==> r[k] == UpperChar(s[k])
    ensures forall k :: 0 <= k < |r| ==> !('a' <= r[k] <= 'z')
    ensures forall k :: 0 <= k < |s| ==> ('a' <= s[k] <= 'z' <==> r[k] != s[k])
  {
    seq(|s|, k requires 0 <= k < |s| => UpperChar(s[k]))
  }

  /** Upper-casing an upper-cased string changes nothing. */
  lemma UpperIdempotent(s: string)
    ensures Upper(Upper(s)) == Upper(s)
  {
  }

  /** `getInitials`: "U" for a missing or empty name; otherwise the first
      character of each space-separated piece, joined, upper-cased and cut to two. */
  function Initials(name: Option<string>): (r: string)
    ensures |r| <= 2
    ensures !Truthy(name) ==> r == "U"
    ensures Truthy(name) ==>
      var starts := Upper(WordStarts(name.value, true));
      r == starts[..Min(2, |starts|)]
  {
    if !Truthy(name) then "U"
    else
      HeadsAreWordStarts(name.value);
      var joined := Upper(Heads(Split(name.value)));
      joined[..Min(2, |joined|)]
  }

  lemma {:induction false} WordStartsOfOneWord(s: string, afterSpace: bool)
    requires |s| > 0 && ' ' !in s
    ensures WordStarts(s, afterSpace) == if afterSpace then [s[0]] else ""
  {
    if |s| > 1 {
      assert ' ' !in s[1..] by {
        forall k | 0 <= k < |s| - 1 ensures s[1..][k] != ' ' {
          assert s[1..][k] == s[k + 1];
        }
      }
      WordStartsOfOneWord(s[1..], false);
    }
  }

  lemma {:induction false} WordStartsOfSpaces(s: string, afterSpace: bool)
    requires forall k :: 0 <= k < |s| ==> s[k] == ' '
    ensures WordStarts(s, afterSpace) == ""
  {
    if |s| > 0 {
      WordStartsOfSpaces(s[1..], true);
    }
  }

  /** A one-word name gives its one upper-cased initial. */
  lemma OneWordInitial(s: string)
    requires |s| > 0 && ' ' !in s
    ensures Initials(Some(s)) == [UpperChar(s[0])]
  {
    WordStartsOfOneWord(s, true);
  }

  /** A name made only of spaces gives no initials at all. */
  lemma AllSpacesNoInitials(s: string)
    requires |s| > 0 && forall k :: 0 <= k < |s| ==> s[k] == ' '
    ensures Initials(Some(s)) == ""
  {
    WordStartsOfSpaces(s, true);
  }

  /** Two words give their two initials, however many spaces separate them and
      whatever follows the second word's first characters. */
  lemma {:induction false} TwoWordInitials(first: string, gap: string, second: string, rest: string)
    requires |first| > 0 && ' ' !in first && |second| > 0 && ' ' !in second
    requires |gap| > 0 && forall k :: 0 <= k < |gap| ==> gap[k] == ' '
    ensures Initials(Some(first + gap + second + rest)) == [UpperChar(first[0]), UpperChar(second[0])]
  {
    var tail2 := second + rest;
    var tail1 := gap + tail2;
    var s := first + tail1;
    assert first + gap + second + rest == s;
    assert first[|first| - 1] in first && gap[|gap| - 1] == ' ';
    WordStartsConcat(first, tail1, true);
    WordStartsOfOneWord(first, true);
    WordStartsConcat(gap, tail2, false);
    WordStartsOfSpaces(gap, false);
    WordStartsConcat(second, rest, true);
    WordStartsOfOneWord(second, true);
    var starts := WordStarts(s, true);
    assert starts == [first[0]] + ([second[0]] + WordStarts(rest, false));
    assert |starts| >= 2 && starts[0] == first[0] && starts[1] == second[0];
    var up := Upper(starts);
    assert up[..2] == [UpperChar(first[0]), UpperChar(second[0])];
  }

  lemma {:induction false} WordStartsConcat(a: string, b: string, afterSpace: bool)
    requires |a| > 0
    ensures WordStarts(a + b, afterSpace) == WordStarts(a, afterSpace) + WordStarts(b, a[|a| - 1] == ' ')
  {
    var head := if a[0] != ' ' && afterSpace then [a[0]] else "";
    var rest, c := a[1..], a[0] == ' ';
    var ab := a + b;
    assert ab[0] == a[0] && ab[1..] == rest + b;
    if |rest| == 0 {
      assert rest + b == b;
      assert WordStarts(rest, c) == "";
    } else {
      assert rest[|rest| - 1] == a[|a| - 1];
      calc {
        WordStarts(ab, afterSpace);
        head + WordStarts(rest + b, c);
        { WordStartsConcat(rest, b, c); }
        head + (WordStarts(rest, c) + WordStarts(b, a[|a| - 1] == ' '));
        (head + WordStarts(rest, c)) + WordStarts(b, a[|a| - 1] == ' ');
        WordStarts(a, afterSpace) + WordStarts(b, a[|a| - 1] == ' ');
      }
    }
  }

  /** Examples: "John  Doe" gives "JD", "mary ann smith" gives "MA", "" gives "U". */
  lemma Examples()
    ensures Initials(Some("John  Doe")) == "JD"
    ensures Initials(Some("mary ann smith")) == "MA"
    ensures Initials(Some("")) == "U" && Initials(None) == "U"
  {
    TwoWordInitials("John", "  ", "Doe", "");
    assert "John" + "  " + "Doe" + "" == "John  Doe";
    TwoWordInitials("mary", " ", "ann", " smith");
    assert "mary" + " " + "ann" + " smith" == "mary ann smith";
  }
}
