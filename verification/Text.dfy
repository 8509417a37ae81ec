/** Text helpers over single-byte characters: ASCII whitespace and trimming. */
module Text {

  predicate IsSpace(c: char) {
    c == ' ' || '\t' <= c <= '\r'
  }

  predicate AllSpace(s: string) {
    forall c <- s :: IsSpace(c)
  }

  function TrimLeft(s: string): (r: string)
    ensures |r| <= |s|
  {
    if s != [] && IsSpace(s[0]) then TrimLeft(s[1..]) else s
  }

  function TrimRight(s: string): (r: string)
    ensures |r| <= |s|
  {
    if s != [] && IsSpace(s[|s| - 1]) then TrimRight(s[..|s| - 1]) else s
  }

  function Trim(s: string): (r: string)
    ensures |r| <= |s|
  {
    TrimRight(TrimLeft(s))
  }

  lemma {:induction false} TrimLeftDropsSpace(s: string) returns (front: string)
    ensures s == front + TrimLeft(s) && AllSpace(front)
  {
    front := [];
    if s != [] && IsSpace(s[0]) {
      front := TrimLeftDropsSpace(s[1..]);
      front := [s[0]] + front;
    }
  }

  lemma {:induction false} TrimRightDropsSpace(s: string) returns (back: string)
    ensures s == TrimRight(s) + back && AllSpace(back)
  {
    back := [];
    if s != [] && IsSpace(s[|s| - 1]) {
      back := TrimRightDropsSpace(s[..|s| - 1]);
      back := back + [s[|s| - 1]];
    }
  }

  predicate BareEnds(s: string) {
    s != [] ==> !IsSpace(s[0]) && !IsSpace(s[|s| - 1])
  }

  lemma {:induction false} TrimLeftIsBare(s: string)
    ensures TrimLeft(s) != [] ==> !IsSpace(TrimLeft(s)[0])
  {
    if s != [] && IsSpace(s[0]) {
      TrimLeftIsBare(s[1..]);
    }
  }

  lemma {:induction false} TrimRightIsBare(s: string)
    requires s != [] ==> !IsSpace(s[0])
    ensures BareEnds(TrimRight(s))
  {
    if s != [] && IsSpace(s[|s| - 1]) {
      TrimRightIsBare(s[..|s| - 1]);
    }
  }

  /** Trimming removes whitespace at the ends, all of it, and nothing else. */
  lemma TrimParts(s: string) returns (front: string, back: string)
    ensures s == front + (Trim(s) + back) && AllSpace(front) && AllSpace(back)
    ensures BareEnds(Trim(s))
  {
    front := TrimLeftDropsSpace(s);
    back := TrimRightDropsSpace(TrimLeft(s));
    TrimLeftIsBare(s);
    TrimRightIsBare(TrimLeft(s));
  }
}
