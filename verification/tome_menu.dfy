/** `TomeAssignmentMenu`: the display name of a tome type and the list of
    tome types the bookcase menu offers. */
module TomeMenus {
  import opened TomeTypes

  /** `TomeType.ToString()`: the enum member's identifier. */
  function TypeName(t: TomeType): string
  {
    match t
    case None => "None"
    case FireballTome => "FireballTome"
    case MeteoriteTome => "MeteoriteTome"
    case IceHailTome => "IceHailTome"
  }

  /** `char.IsUpper`, restricted to the ASCII letters the enum names use. */
  predicate IsUpper(c: char) {
    'A' <= c <= 'Z'
  }

  /** The number of upper-case characters in `s`. */
  function UpperCount(s: string): nat
  {
    if |s| == 0 then 0 else (if IsUpper(s[0]) then 1 else 0) + UpperCount(s[1..])
  }

  /** `s` with every space removed. */
  function DropSpaces(s: string): string
  {
    if |s| == 0 then "" else (if s[0] == ' ' then "" else [s[0]]) + DropSpaces(s[1..])
  }

  /** The body of the `for` loop from index 1: each character, preceded by a
      space when it is upper case. */
  function SpaceBeforeUpper(s: string): (r: string)
    ensures |r| == |s| + UpperCount(s)
  {
    if |s| == 0 then ""
    else (if IsUpper(s[0]) then " " else "") + [s[0]] + SpaceBeforeUpper(s[1..])
  }

  /** The `StringBuilder` text: the first character as is, then every later
      character, each upper-case one preceded by a space. */
  function InsertSpaces(raw: string): (r: string)
    ensures |raw| == 0 ==> r == ""
    ensures |raw| > 0 ==> |r| == |raw| + UpperCount(raw[1..]) && r[0] == raw[0]
  {
    if |raw| == 0 then "" else [raw[0]] + SpaceBeforeUpper(raw[1..])
  }

  lemma {:induction false} DropSpacesAppend(a: string, b: string)
    ensures DropSpaces(a + b) == DropSpaces(a) + DropSpaces(b)
    decreases |a|
  {
    if |a| == 0 {
      assert a + b == b;
    } else {
      assert (a + b)[1..] == a[1..] + b;
      DropSpacesAppend(a[1..], b);
    }
  }

  lemma {:induction false} SpaceBeforeUpperDropsBack(s: string)
    ensures DropSpaces(SpaceBeforeUpper(s)) == DropSpaces(s)
    decreases |s|
  {
    if |s| > 0 {
      var head := (if IsUpper(s[0]) then " " else "") + [s[0]];
      assert SpaceBeforeUpper(s) == head + SpaceBeforeUpper(s[1..]);
      DropSpacesAppend(head, SpaceBeforeUpper(s[1..]));
      SpaceBeforeUpperDropsBack(s[1..]);
      if IsUpper(s[0]) {
        DropSpacesAppend(" ", [s[0]]);
      }
    }
  }

  /** The inserted characters are all spaces: removing every space from the
      built text gives the input with its spaces removed, so every input
      character is kept, in order. One space is inserted per upper-case
      character after index 0. */
  lemma InsertSpacesKeepsCharacters(raw: string)
    ensures DropSpaces(InsertSpaces(raw)) == DropSpaces(raw)
    ensures |raw| > 0 ==> |InsertSpaces(raw)| - |raw| == UpperCount(raw[1..])
  {
    if |raw| > 0 {
      DropSpacesAppend([raw[0]], SpaceBeforeUpper(raw[1..]));
      SpaceBeforeUpperDropsBack(raw[1..]);
      assert raw == [raw[0]] + raw[1..];
      DropSpacesAppend([raw[0]], raw[1..]);
    }
  }

  /** `pat` occurs in `s` at index `i`. */
  predicate OccursAt(s: string, pat: string, i: nat)
  {
    i <= |s| && pat <= s[i..]
  }

  /** `string.Replace(pat, "")`: every non-overlapping occurrence of `pat`,
      scanning left to right, is removed. */
  function RemoveAll(s: string, pat: string): (r: string)
    requires |pat| > 0
    ensures |r| <= |s|
    decreases |s|
  {
    if |s| == 0 then ""
    else if OccursAt(s, pat, 0) then RemoveAll(s[|pat|..], pat)
    else [s[0]] + RemoveAll(s[1..], pat)
  }

  /** A text without any occurrence of the pattern comes back unchanged. */
  lemma {:induction false} RemoveAllWithoutOccurrence(s: string, pat: string)
    requires |pat| > 0
    requires forall i: nat :: !OccursAt(s, pat, i)
    ensures RemoveAll(s, pat) == s
    decreases |s|
  {
    if |s| > 0 {
      assert !OccursAt(s, pat, 0);
      forall i: nat
        ensures !OccursAt(s[1..], pat, i)
      {
        assert !OccursAt(s, pat, i + 1);
      }
      RemoveAllWithoutOccurrence(s[1..], pat);
    }
  }

  /** A prefix in which the pattern's first character does not occur is
      copied through unchanged. */
  lemma {:induction false} RemoveAllSkipsPrefix(a: string, b: string, pat: string)
    requires |pat| > 0
    requires forall i :: 0 <= i < |a| ==> a[i] != pat[0]
    ensures RemoveAll(a + b, pat) == a + RemoveAll(b, pat)
    decreases |a|
  {
    if |a| > 0 {
      assert (a + b)[0] == a[0];
      assert !OccursAt(a + b, pat, 0);
      assert (a + b)[1..] == a[1..] + b;
      RemoveAllSkipsPrefix(a[1..], b, pat);
      assert RemoveAll(a + b, pat) == [a[0]] + (a[1..] + RemoveAll(b, pat));
      assert a == [a[0]] + a[1..];
    } else {
      assert a + b == b;
    }
  }

  /** The spacing of a text without upper-case letters is the text itself. */
  lemma {:induction false} SpaceBeforeUpperLowerCase(s: string)
    requires forall i :: 0 <= i < |s| ==> !IsUpper(s[i])
    ensures SpaceBeforeUpper(s) == s
    decreases |s|
  {
    if |s| > 0 {
      SpaceBeforeUpperLowerCase(s[1..]);
    }
  }

  lemma {:induction false} SpaceBeforeUpperAppend(a: string, b: string)
    ensures SpaceBeforeUpper(a + b) == SpaceBeforeUpper(a) + SpaceBeforeUpper(b)
    decreases |a|
  {
    if |a| == 0 {
      assert a + b == b;
    } else {
      var head := (if IsUpper(a[0]) then " " else "") + [a[0]];
      assert (a + b)[0] == a[0];
      assert (a + b)[1..] == a[1..] + b;
      SpaceBeforeUpperAppend(a[1..], b);
      assert SpaceBeforeUpper(a + b) == head + (SpaceBeforeUpper(a[1..]) + SpaceBeforeUpper(b));
      assert SpaceBeforeUpper(a) == head + SpaceBeforeUpper(a[1..]);
    }
  }

  /** A capitalised word gets a single space before it. */
  lemma {:induction false} SpacedWord(first: char, tail: string)
    requires IsUpper(first)
    requires forall i :: 0 <= i < |tail| ==> !IsUpper(tail[i])
    ensures SpaceBeforeUpper([first] + tail) == [' ', first] + tail
  {
    assert ([first] + tail)[1..] == tail;
    SpaceBeforeUpperLowerCase(tail);
  }

  /** The pattern right after a word free of the pattern's first character
      is removed, and the word is kept. */
  lemma {:induction false} RemoveTrailingPattern(word: string, pat: string)
    requires |pat| > 0
    requires forall i :: 0 <= i < |word| ==> word[i] != pat[0]
    ensures RemoveAll(word + pat, pat) == word
  {
    RemoveAllSkipsPrefix(word, pat, pat);
    assert OccursAt(pat, pat, 0);
    assert pat[|pat|..] == [];
  }

  /** The pattern's first character, when the next one does not continue the
      pattern, is kept. */
  lemma {:induction false} KeepSeparator(word: string, pat: string)
    requires |pat| >= 2 && |word| > 0 && word[0] != pat[1]
    requires forall i :: 0 <= i < |word| ==> word[i] != pat[0]
    ensures RemoveAll([pat[0]] + word + pat, pat) == [pat[0]] + word
  {
    var s := [pat[0]] + word + pat;
    assert !OccursAt(s, pat, 0) by {
      assert s[1] == word[0];
      DiffersAt(s, pat, 1);
    }
    assert RemoveAll(s[1..], pat) == word by {
      assert s[1..] == word + pat;
      RemoveTrailingPattern(word, pat);
    }
    assert RemoveAll(s, pat) == [s[0]] + RemoveAll(s[1..], pat);
  }

  /** One differing character rules out an occurrence. */
  lemma {:induction false} DiffersAt(s: string, pat: string, k: nat)
    requires k < |pat| <= |s| && s[k] != pat[k]
    ensures !OccursAt(s, pat, 0)
  {
    assert s[0..][k] == s[k];
  }

  /** `FormatTomeName`: the empty string for no tome, otherwise the spaced
      enum name with every " Tome" removed. */
  function FormatTomeName(t: TomeType): (r: string)
    ensures t == TomeType.None ==> r == ""
    ensures t != TomeType.None ==> r == RemoveAll(InsertSpaces(TypeName(t)), " Tome")
  {
    if t == TomeType.None then "" else RemoveAll(InsertSpaces(TypeName(t)), " Tome")
  }

  /** A one-word tome such as `FireballTome` is shown as its word. */
  lemma {:induction false} FormatOneWordTome(t: TomeType, word: string)
    requires |word| > 0 && word[0] != ' '
    requires forall i :: 1 <= i < |word| ==> !IsUpper(word[i]) && word[i] != ' '
    requires TypeName(t) == [word[0]] + (word[1..] + ['T'] + "ome")
    ensures FormatTomeName(t) == word
  {
    assert t != TomeType.None by {
      assert |TypeName(t)| == |word| + 4;
      assert TypeName(t)[|word|] == 'T';
    }
    SpacedOneWordTome(word);
    assert " Tome"[0] == ' ';
    RemoveTrailingPattern(word, " Tome");
  }

  lemma FormatFireball()
    ensures FormatTomeName(FireballTome) == "Fireball"
  {
    var name := ['F'] + "ireball";
    assert TypeName(FireballTome) == [name[0]] + (name[1..] + ['T'] + "ome");
    FormatOneWordTome(FireballTome, name);
  }

  lemma FormatMeteorite()
    ensures FormatTomeName(MeteoriteTome) == "Meteorite"
  {
    var name := ['M'] + "eteorite";
    assert TypeName(MeteoriteTome) == [name[0]] + (name[1..] + ['T'] + "ome");
    FormatOneWordTome(MeteoriteTome, name);
  }

  lemma FormatIceHail()
    ensures FormatTomeName(IceHailTome) == "Ice Hail"
  {
    var first := ['I'] + "ce";
    var second := ['H'] + "ail";
    assert TypeName(IceHailTome) == [first[0]] + (first[1..] + (second + (['T'] + "ome")));
    SpacedTwoWordTome(first, second);
    var pat := " Tome";
    assert pat[0] == ' ' && pat[1] == 'T';
    assert RemoveAll(first + ([' '] + second + pat), pat) == first + RemoveAll([pat[0]] + second + pat, pat) by {
      RemoveAllSkipsPrefix(first, [' '] + second + pat, pat);
    }
    KeepSeparator(second, pat);
    assert first + ([' '] + second) == "Ice Hail";
  }

  /** The spaced text of a one-word tome name such as "FireballTome". */
  lemma {:induction false} SpacedOneWordTome(word: string)
    requires |word| > 0
    requires forall i :: 1 <= i < |word| ==> !IsUpper(word[i])
    ensures InsertSpaces([word[0]] + (word[1..] + ['T'] + "ome")) == word + " Tome"
  {
    var rest := word[1..];
    assert ([word[0]] + (rest + ['T'] + "ome"))[1..] == rest + (['T'] + "ome");
    assert SpaceBeforeUpper(rest + (['T'] + "ome")) == rest + SpaceBeforeUpper(['T'] + "ome") by {
      SpaceBeforeUpperAppend(rest, ['T'] + "ome");
      SpaceBeforeUpperLowerCase(rest);
    }
    SpacedWord('T', "ome");
    assert [word[0]] + (rest + ([' ', 'T'] + "ome")) == word + " Tome";
  }

  /** The spaced text of a two-word tome name such as "IceHailTome". */
  lemma {:induction false} SpacedTwoWordTome(first: string, second: string)
    requires |first| > 0 && |second| > 0 && IsUpper(second[0])
    requires forall i :: 1 <= i < |first| ==> !IsUpper(first[i])
    requires forall i :: 1 <= i < |second| ==> !IsUpper(second[i])
    ensures InsertSpaces([first[0]] + (first[1..] + (second + (['T'] + "ome"))))
         == first + ([' '] + second + " Tome")
  {
    var rest := first[1..];
    var tail := second + (['T'] + "ome");
    var raw := [first[0]] + (rest + tail);
    assert raw[0] == first[0] && raw[1..] == rest + tail;
    assert SpaceBeforeUpper(rest + tail) == rest + SpaceBeforeUpper(tail) by {
      SpaceBeforeUpperAppend(rest, tail);
      SpaceBeforeUpperLowerCase(rest);
    }
    assert SpaceBeforeUpper(tail) == ([' '] + second) + " Tome" by {
      SpaceBeforeUpperAppend(second, ['T'] + "ome");
      assert second == [second[0]] + second[1..];
      SpacedWord(second[0], second[1..]);
      SpacedWord('T', "ome");
    }
    assert [first[0]] + (rest + (([' '] + second) + " Tome")) == first + ([' '] + second + " Tome");
  }

  /** Every tome other than `None` gets a non-empty name, so an empty label
      means exactly "no tome". */
  lemma FormatTomeNameEmptyIffNone(t: TomeType)
    ensures FormatTomeName(t) == "" <==> t == TomeType.None
  {
    if t != TomeType.None {
      var spaced := InsertSpaces(TypeName(t));
      assert spaced[0] != ' ';
      assert !OccursAt(spaced, " Tome", 0);
      assert FormatTomeName(t) == [spaced[0]] + RemoveAll(spaced[1..], " Tome");
    }
  }

  /** The enum values other than `None`, in enum order. */
  function WithoutNone(s: seq<TomeType>): (r: seq<TomeType>)
    ensures TomeType.None !in r
    ensures forall t :: t in r ==> t in s
  {
    if |s| == 0 then []
    else (if s[0] == TomeType.None then [] else [s[0]]) + WithoutNone(s[1..])
  }

  class TomeAssignmentMenu {
    var availableTomes: seq<TomeType>

    constructor ()
      ensures availableTomes == []
    {
      availableTomes := [];
    }

    /** The list part of `Start`: cleared, then `None`, then every other enum
        value. */
    method Start()
      modifies this`availableTomes
      ensures availableTomes == [TomeType.None] + WithoutNone(AllTomeTypes)
    {
      availableTomes := [];
      availableTomes := availableTomes + [TomeType.None];
      var i := 0;
      while i < |AllTomeTypes|
        invariant 0 <= i <= |AllTomeTypes|
        invariant availableTomes == [TomeType.None] + WithoutNone(AllTomeTypes[..i])
      {
        var tome := AllTomeTypes[i];
        assert AllTomeTypes[..i + 1] == AllTomeTypes[..i] + [tome];
        WithoutNoneAppend(AllTomeTypes[..i], tome);
        if tome != TomeType.None {
          availableTomes := availableTomes + [tome];
        }
        i := i + 1;
      }
      assert AllTomeTypes[..i] == AllTomeTypes;
    }
  }

  lemma {:induction false} WithoutNoneAppend(s: seq<TomeType>, t: TomeType)
    ensures WithoutNone(s + [t]) == WithoutNone(s) + (if t == TomeType.None then [] else [t])
    decreases |s|
  {
    if |s| == 0 {
      assert s + [t] == [t];
    } else {
      assert (s + [t])[1..] == s[1..] + [t];
      WithoutNoneAppend(s[1..], t);
    }
  }

  /** The menu offers `None` first and then every tome type exactly once, in
      enum order. */
  lemma AvailableTomesListEveryTypeOnce(t: TomeType)
    ensures ([TomeType.None] + WithoutNone(AllTomeTypes))[0] == TomeType.None
    ensures multiset([TomeType.None] + WithoutNone(AllTomeTypes))[t] == 1
    ensures [TomeType.None] + WithoutNone(AllTomeTypes) == AllTomeTypes
  {
    AllTomeTypesComplete(t);
    var tail := [FireballTome, MeteoriteTome, IceHailTome];
    assert AllTomeTypes == [TomeType.None] + tail;
    assert tail[1..] == [MeteoriteTome, IceHailTome];
    assert tail[1..][1..] == [IceHailTome];
    assert tail[1..][1..][1..] == [];
    assert WithoutNone(tail[1..][1..]) == [IceHailTome];
    assert WithoutNone(tail[1..]) == [MeteoriteTome, IceHailTome];
    assert WithoutNone(tail) == tail;
    assert WithoutNone(AllTomeTypes) == tail;
  }
}
