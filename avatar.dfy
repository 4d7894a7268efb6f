/** The avatar (src/components/atoms/Avatar/Avatar.js): the image when a source is given,
    otherwise a placeholder holding the initials of a name. */
module Avatar {
  import opened Common
  import opened Text

  /** `word.charAt(0)`: the first character, or "" for an empty word. */
  function FirstChar(w: string): (r: string)
    ensures |r| <= 1
    ensures r == [] <==> w == []
    ensures w != [] ==> r == [w[0]]
  {
    if w == [] then [] else [w[0]]
  }

  /** `words.map(charAt(0)).join("")`. */
  function Heads(words: seq<string>): string {
    if words == [] then [] else FirstChar(words[0]) + Heads(words[1..])
  }

  /** The reference reading of the initials: each non-space character that opens a word,
      that is, comes first or right after a space, in order. */
  function WordStarts(s: string, afterSpace: bool): string
    decreases |s|
  {
    if s == [] then []
    else (if afterSpace && s[0] != ' ' then [s[0]] else []) + WordStarts(s[1..], s[0] == ' ')
  }

  /** A run without spaces contributes at most its first character. */
  lemma {:induction false} RunWithoutSpace(u: string, t: string, afterSpace: bool)
    requires ' ' !in u
    ensures WordStarts(u + t, afterSpace) ==
      (if afterSpace && u != [] then [u[0]] else []) + WordStarts(t, u == [] && afterSpace)
    decreases |u|
  {
    if u != [] {
      assert (u + t)[1..] == u[1..] + t;
      RunWithoutSpace(u[1..], t, false);
      if u[1..] == [] {
        assert WordStarts(u[1..] + t, false) == WordStarts(t, false);
      }
    } else {
      assert u + t == t;
    }
  }

  /** Splitting on single spaces and keeping each piece's first character finds exactly the
      word openings: the empty pieces that repeated spaces produce contribute nothing. */
  lemma {:induction false} HeadsOfSplit(s: string)
    ensures Heads(SplitOnSpace(s)) == WordStarts(s, true)
    decreases |s|
  {
    match IndexOf(s, ' ')
    case None =>
      assert SplitOnSpace(s) == [s];
      HeadsOfCons(s, []);
      RunWithoutSpace(s, [], true);
      assert s + [] == s;
    case Some(k) =>
      var t := s[k + 1..];
      assert SplitOnSpace(s) == [s[..k]] + SplitOnSpace(t);
      HeadsOfCons(s[..k], SplitOnSpace(t));
      HeadsOfSplit(t);
      FirstWordThenRest(s, k);
  }

  /** The openings of a text are those of its first space-free run, then those after the
      space that ends it. */
  lemma FirstWordThenRest(s: string, k: nat)
    requires k < |s| && s[k] == ' ' && ' ' !in s[..k]
    ensures WordStarts(s, true) == FirstChar(s[..k]) + WordStarts(s[k + 1..], true)
  {
    var t := s[k + 1..];
    assert s == s[..k] + ([' '] + t);
    RunWithoutSpace(s[..k], [' '] + t, true);
    SpaceOpensWord(t);
  }

  lemma HeadsOfCons(w: string, rest: seq<string>)
    ensures Heads([w] + rest) == FirstChar(w) + Heads(rest)
  {
    assert ([w] + rest)[1..] == rest;
  }

  lemma SpaceOpensWord(t: string)
    ensures WordStarts([' '] + t, false) == WordStarts(t, true)
  {
    assert ([' '] + t)[1..] == t;
  }

  /** `getInitials`: "?" for an empty name; otherwise the upper-cased word openings, at most
      two. A name made only of spaces has no openings and yields "". */
  function Initials(name: string): (r: string)
    ensures |r| <= 2
    ensures name == [] ==> r == "?"
    ensures name != [] ==> |r| == Min(2, |WordStarts(name, true)|)
    ensures name != [] ==> forall i :: 0 <= i < |r| ==> r[i] == UpperChar(WordStarts(name, true)[i])
  {
    if name == [] then "?"
    else
      var joined := ToUpper(Heads(SplitOnSpace(name)));
      HeadsOfSplit(name);
      if |joined| <= 2 then joined else joined[..2]
  }

  function Min(a: int, b: int): int { if a <= b then a else b }

  /** A name of spaces only is truthy yet has no word openings: the placeholder is empty. */
  lemma BlankNameHasNoInitials(n: nat)
    requires n >= 1
    ensures Initials(seq(n, _ => ' ')) == ""
  {
    var s := seq(n, _ => ' ');
    assert forall i :: 0 <= i < |s| ==> s[i] == ' ';
    assert |WordStarts(s, true)| == 0 by { NoOpeningsInSpaces(s, true); }
  }

  lemma {:induction false} NoOpeningsInSpaces(s: string, afterSpace: bool)
    requires forall i :: 0 <= i < |s| ==> s[i] == ' '
    ensures WordStarts(s, afterSpace) == []
    decreases |s|
  {
    if s != [] {
      NoOpeningsInSpaces(s[1..], true);
    }
  }

  datatype View =
    | Image(src: string, alt: string)
    | Placeholder(initials: string)

  /** The image when `src` is truthy; otherwise the initials of `username || alt`, where `alt`
      defaults to "Avatar" when not passed. */
  function Render(src: Option<string>, alt: Option<string>, username: Option<string>): (v: View)
    ensures v.Image? <==> Truthy(src)
    ensures v.Image? ==> v.src == src.value && v.alt == alt.GetOr("Avatar")
    ensures v.Placeholder? && Truthy(username) ==> v.initials == Initials(username.value)
    ensures v.Placeholder? && !Truthy(username) ==> v.initials == Initials(alt.GetOr("Avatar"))
  {
    if Truthy(src) then Image(src.value, alt.GetOr("Avatar"))
    else Placeholder(Initials(OrElse(username, alt.GetOr("Avatar"))))
  }

  /** With neither a source, a username nor an alt text, the placeholder shows "A". */
  lemma DefaultPlaceholder()
    ensures Render(None, None, None) == Placeholder("A")
  {
    HeadsOfSplit("Avatar");
    assert WordStarts("Avatar", true) == "A" + WordStarts("vatar", false);
    NoOpeningsAfter("vatar");
    assert ToUpper("A") == "A";
  }

  lemma {:induction false} NoOpeningsAfter(s: string)
    requires ' ' !in s
    ensures WordStarts(s, false) == []
    decreases |s|
  {
    if s != [] {
      NoOpeningsAfter(s[1..]);
    }
  }
}
