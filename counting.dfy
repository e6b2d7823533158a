/** Counting characters of a cube string. Both validators count how often each
    expected letter occurs; the facts here say when such counts leave room for
    no other character. A count of one character is `multiset(s)[c]`. */
module Counting {

  /** No character occurs twice. */
  predicate Distinct(letters: seq<char>)
  {
    forall i, j :: 0 <= i < j < |letters| ==> letters[i] != letters[j]
  }

  /** The characters of `letters`, as a set. */
  function Letters(letters: seq<char>): (r: set<char>)
    ensures forall c :: c in r <==> c in letters
  {
    set c | c in letters
  }

  /** The number of positions of `s` that hold a character of `wanted`. */
  function CountIn(s: seq<char>, wanted: set<char>): (n: nat)
    ensures n <= |s|
  {
    if s == [] then 0
    else CountIn(s[..|s| - 1], wanted) + (if s[|s| - 1] in wanted then 1 else 0)
  }

  /** When every position is counted, every position holds a wanted character. */
  lemma {:induction false} CountInAll(s: seq<char>, wanted: set<char>)
    requires CountIn(s, wanted) == |s|
    ensures forall i :: 0 <= i < |s| ==> s[i] in wanted
  {
    if s != [] {
      CountInAll(s[..|s| - 1], wanted);
    }
  }

  /** Adding one new character to the wanted set adds its own count. */
  lemma {:induction false} CountInAdd(s: seq<char>, wanted: set<char>, c: char)
    requires c !in wanted
    ensures CountIn(s, wanted + {c}) == CountIn(s, wanted) + multiset(s)[c]
  {
    if s != [] {
      var init := s[..|s| - 1];
      CountInAdd(init, wanted, c);
      assert s == init + [s[|s| - 1]];
    }
  }

  /** With distinct letters each occurring `k` times, exactly `|letters| * k`
      positions hold one of them. */
  lemma {:induction false} CountInLetters(s: seq<char>, letters: seq<char>, k: nat)
    requires Distinct(letters)
    requires forall j :: 0 <= j < |letters| ==> multiset(s)[letters[j]] == k
    ensures CountIn(s, Letters(letters)) == |letters| * k
  {
    if letters == [] {
      assert Letters(letters) == {};
      CountInNone(s);
    } else {
      var init := letters[..|letters| - 1];
      var c := letters[|letters| - 1];
      assert letters == init + [c];
      assert forall j :: 0 <= j < |init| ==> init[j] == letters[j];
      assert Distinct(init);
      assert forall j :: 0 <= j < |init| ==> multiset(s)[init[j]] == k;
      CountInLetters(s, init, k);
      assert Letters(letters) == Letters(init) + {c};
      assert c !in Letters(init);
      CountInAdd(s, Letters(init), c);
      MulSucc(|init|, k);
    }
  }

  /** One more group of `k`. */
  lemma MulSucc(n: nat, k: nat)
    ensures (n + 1) * k == n * k + k
  {
  }

  /** Nothing is counted against the empty set. */
  lemma {:induction false} CountInNone(s: seq<char>)
    ensures CountIn(s, {}) == 0
  {
    if s != [] {
      CountInNone(s[..|s| - 1]);
    }
  }

  /** A position holding an unwanted character keeps the count below the
      length. */
  lemma {:induction false} CountInMissing(s: seq<char>, wanted: set<char>, i: int)
    requires 0 <= i < |s| && s[i] !in wanted
    ensures CountIn(s, wanted) < |s|
  {
    var init := s[..|s| - 1];
    if i < |s| - 1 {
      assert init[i] == s[i];
      CountInMissing(init, wanted, i);
    }
  }

  /** Distinct letters that each occur `k` times account for `|letters| * k`
      positions. */
  lemma CountInLettersWhen(s: seq<char>, letters: seq<char>, k: nat)
    requires Distinct(letters)
    ensures (forall j :: 0 <= j < |letters| ==> multiset(s)[letters[j]] == k) ==> CountIn(s, Letters(letters)) == |letters| * k
  {
    if forall j :: 0 <= j < |letters| ==> multiset(s)[letters[j]] == k {
      CountInLetters(s, letters, k);
    }
  }

  /** Distinct letters that each occur `k` times, filling `|letters| * k ==
      |s|` positions, leave no position for any other character. */
  lemma NoRoomForOthers(s: seq<char>, letters: seq<char>, k: nat)
    requires Distinct(letters)
    requires forall j :: 0 <= j < |letters| ==> multiset(s)[letters[j]] == k
    requires |letters| * k == |s|
    ensures forall i :: 0 <= i < |s| ==> s[i] in letters
  {
    CountInLetters(s, letters, k);
    CountInAll(s, Letters(letters));
  }
}
