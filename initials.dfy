/** The avatar initials of the profile screen: split the name on single spaces, take the first
    character of each piece, keep the first two pieces, join and upper-case. */
module Initials {

  /** `s.split(' ')`: the pieces between single spaces, empty pieces included, so a string
      with k spaces has k + 1 pieces. */
  function Split(s: string): (words: seq<string>)
    ensures |words| >= 1
    ensures forall w :: w in words ==> ' ' !in w
  {
    if |s| == 0 then [""]
    else if s[0] == ' ' then [""] + Split(s[1..])
    else
      var rest := Split(s[1..]);
      [[s[0]] + rest[0]] + rest[1..]
  }

  /** `words.join(' ')`. */
  function Join(words: seq<string>): string
    requires |words| >= 1
  {
    if |words| == 1 then words[0] else words[0] + " " + Join(words[1..])
  }

  /** Splitting loses nothing: joining the pieces with single spaces gives the name back. */
  lemma {:induction false} JoinSplit(s: string)
    ensures Join(Split(s)) == s
  {
    if |s| == 0 {
    } else if s[0] == ' ' {
      JoinSplit(s[1..]);
      assert Split(s)[1..] == Split(s[1..]);
    } else {
      JoinSplit(s[1..]);
      var rest := Split(s[1..]);
      var words := Split(s);
      assert words[0] == [s[0]] + rest[0];
      if |rest| == 1 {
        assert Join(words) == [s[0]] + rest[0];
      } else {
        assert words[1..] == rest[1..];
        assert Join(words) == [s[0]] + rest[0] + " " + Join(rest[1..]);
      }
      assert [s[0]] + s[1..] == s;
    }
  }

  /** `s[0]` as `join` renders it: an empty piece has no first character and adds nothing. */
  function FirstChar(w: string): (c: string)
    ensures |c| <= 1
    ensures |w| > 0 ==> c == [w[0]]
  {
    if |w| == 0 then "" else [w[0]]
  }

  /** `.map((s) => s[0]).join('')` over the pieces. */
  function FirstChars(words: seq<string>): (r: string)
    ensures |r| <= |words|
  {
    if |words| == 0 then "" else FirstChar(words[0]) + FirstChars(words[1..])
  }

  /** `toUpperCase` on one character: the ASCII letters a-z become A-Z. */
  function UpperChar(c: char): (u: char)
    ensures 'a' <= c <= 'z' ==> u as int == c as int - 32
    ensures !('a' <= c <= 'z') ==> u == c
  {
    if 'a' <= c <= 'z' then (c as int - 32) as char else c
  }

  function ToUpper(s: string): (u: string)
    ensures |u| == |s|
    ensures forall i :: 0 <= i < |s| ==> u[i] == UpperChar(s[i])
  {
    seq(|s|, i requires 0 <= i < |s| => UpperChar(s[i]))
  }

  /** `getInitials`: the first characters of the first two pieces, upper-cased. */
  function GetInitials(name: string): (r: string)
    ensures |r| <= 2
    ensures forall i :: 0 <= i < |r| ==> !('a' <= r[i] <= 'z')
  {
    var words := Split(name);
    ToUpper(FirstChars(words[..if |words| < 2 then |words| else 2]))
  }

  /** Only the first two pieces count: the first character of each, upper-cased; an empty
      piece (from a leading or doubled space) contributes nothing but still takes its slot. */
  lemma InitialsOfFirstTwoPieces(name: string)
    ensures var words := Split(name);
      GetInitials(name) == ToUpper(FirstChar(words[0]) + (if |words| >= 2 then FirstChar(words[1]) else ""))
  {
    var words := Split(name);
    if |words| >= 2 {
      var two := words[..2];
      assert two[1..] == [words[1]] && two[1..][1..] == [];
      assert FirstChars(two[1..]) == FirstChar(words[1]);
      assert FirstChars(two) == FirstChar(words[0]) + FirstChar(words[1]);
    } else {
      assert words[..1] == [words[0]];
      assert words[..1][1..] == [];
    }
  }

  /** A name that starts with a letter keeps that letter, upper-cased, as its first initial. */
  lemma {:induction false} FirstInitialIsFirstLetter(name: string)
    requires |name| > 0 && name[0] != ' '
    ensures |GetInitials(name)| >= 1 && GetInitials(name)[0] == UpperChar(name[0])
  {
    InitialsOfFirstTwoPieces(name);
    assert Split(name)[0][0] == name[0];
  }

  /** The mock profile on the screen: "Bruno Marinho" gives "BM". */
  lemma BrunoMarinho()
    ensures GetInitials("Bruno Marinho") == "BM"
  {
    InitialsOfFirstTwoPieces("Bruno Marinho");
  }

  /** A leading space uses up the first slot: " Bruno Marinho" gives "B". */
  lemma LeadingSpaceTakesASlot()
    ensures GetInitials(" Bruno Marinho") == "B"
  {
    InitialsOfFirstTwoPieces(" Bruno Marinho");
  }
}
