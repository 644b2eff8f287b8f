/** `DungeonSelector`: the three dungeon offers shown in the safe area, the
    player's choice among them, and the lookup of the chosen offer. Whether
    the boss dungeon is unlocked is read from the progress manager and is
    passed in; random choices come from the supplied stream. */
module DungeonSelection {
  import opened Common
  import opened Sampling
  import opened DungeonOptions

  /** The first boss offer, by position. */
  function FirstBoss(options: seq<DungeonOption>, from: nat): (r: Option<nat>)
    requires from <= |options|
    ensures r.Some? ==>
      && from <= r.value < |options| && options[r.value].isBossDungeon
      && forall k :: from <= k < r.value ==> !options[k].isBossDungeon
    ensures r.None? ==> forall k :: from <= k < |options| ==> !options[k].isBossDungeon
    decreases |options| - from
  {
    if from == |options| then Option.None
    else if options[from].isBossDungeon then Some(from)
    else FirstBoss(options, from + 1)
  }

  /** The positions of the first `n` offers that are not boss dungeons, in
      order: the list the normal selection draws from. */
  function NonBossIndices(options: seq<DungeonOption>, n: nat): (r: seq<nat>)
    requires n <= |options|
    ensures forall k :: 0 <= k < |r| ==> r[k] < n && !options[r[k]].isBossDungeon
  {
    if n == 0 then []
    else NonBossIndices(options, n - 1) + (if options[n - 1].isBossDungeon then [] else [n - 1])
  }

  /** Every non-boss offer is listed. */
  lemma {:induction false} NonBossIndicesComplete(options: seq<DungeonOption>, n: nat, i: nat)
    requires n <= |options| && i < n && !options[i].isBossDungeon
    ensures i in NonBossIndices(options, n)
  {
    if i < n - 1 {
      NonBossIndicesComplete(options, n - 1, i);
    }
  }

  /** The list is strictly increasing, so no position appears twice. */
  lemma {:induction false} NonBossIndicesDistinct(options: seq<DungeonOption>, n: nat)
    requires n <= |options|
    ensures Distinct(NonBossIndices(options, n))
  {
    if n > 0 {
      NonBossIndicesDistinct(options, n - 1);
    }
  }

  /** The three indices a normal selection among more than three offers
      draws. */
  function NormalSelection(options: seq<DungeonOption>, rand: nat -> nat, d0: nat): (r: seq<nat>)
    requires 3 <= |NonBossIndices(options, |options|)|
    ensures |r| == 3
  {
    DrawSteps(NonBossIndices(options, |options|), 3, rand, d0).offers
  }

  /** The drawn indices are three different offers, none of them a boss
      dungeon. */
  lemma NormalSelectionDistinct(options: seq<DungeonOption>, rand: nat -> nat, d0: nat)
    requires 3 <= |NonBossIndices(options, |options|)|
    ensures Distinct(NormalSelection(options, rand, d0))
    ensures forall k :: 0 <= k < 3 ==>
      NormalSelection(options, rand, d0)[k] < |options| && !options[NormalSelection(options, rand, d0)[k]].isBossDungeon
  {
    var pool := NonBossIndices(options, |options|);
    var s := NormalSelection(options, rand, d0);
    DrawStepsKeepPool(pool, 3, rand, d0);
    NonBossIndicesDistinct(options, |options|);
    SubsetOfDistinct(s, pool);
    forall k | 0 <= k < 3
      ensures s[k] < |options| && !options[s[k]].isBossDungeon
    {
      assert s[k] in multiset(s);
      assert s[k] in multiset(pool);
    }
  }

  /** The first offer named `name`. */
  function FirstNamed(options: seq<DungeonOption>, name: string): (r: Option<DungeonOption>)
    ensures r.Some? ==> r.value in options && r.value.dungeonName == name
    ensures r.None? <==> forall o :: o in options ==> o.dungeonName != name
  {
    if |options| == 0 then Option.None
    else if options[0].dungeonName == name then Some(options[0])
    else FirstNamed(options[1..], name)
  }

  /** With different names, looking an offer up by its name finds that
      offer. */
  lemma {:induction false} FirstNamedFindsOffer(options: seq<DungeonOption>, i: nat)
    requires i < |options|
    requires forall j, k :: 0 <= j < k < |options| ==> options[j].dungeonName != options[k].dungeonName
    ensures FirstNamed(options, options[i].dungeonName) == Some(options[i])
  {
    if i > 0 {
      assert options[0].dungeonName != options[i].dungeonName;
      FirstNamedFindsOffer(options[1..], i - 1);
    }
  }

  /** The data written for a chosen offer: its name and upgrade, and a room
      count drawn from `roomCountMin` to `roomCountMax` inclusive. */
  function ChosenData(option: DungeonOption, rand: nat -> nat, d: nat): (r: DungeonData)
    ensures r.dungeonName == option.dungeonName && r.upgradeName == option.upgradeName
    ensures r.upgradeType == option.upgradeType && r.upgradeValue == option.upgradeValue
    ensures option.roomCountMin <= option.roomCountMax ==> option.roomCountMin <= r.roomCount <= option.roomCountMax
  {
    DungeonData(option.dungeonName, option.upgradeName, option.upgradeType, option.upgradeValue,
      RangeInt(rand, d, option.roomCountMin, option.roomCountMax + 1))
  }

  /** Writing the next drawn entry over the first not yet overwritten one. */
  lemma ReplaceNext(a: seq<nat>, drawn: seq<nat>, rest: seq<nat>, x: nat)
    requires a == drawn + rest && |rest| > 0
    ensures a[|drawn| := x] == drawn + [x] + rest[1..]
  {
  }

  class DungeonSelector {
    const dungeonOptions: seq<DungeonOption>
    /** The offers shown on the three buttons, as positions in `dungeonOptions`. */
    const selectedIndices: array<nat>
    var hasChosenDungeon: bool
    var menuOpen: bool
    /** `DungeonLoader.Instance`, or null. */
    const loader: DungeonLoader?

    ghost predicate Valid()
      reads this
    {
      selectedIndices.Length == 3
    }

    constructor (dungeonOptions: seq<DungeonOption>, loader: DungeonLoader?)
      ensures Valid() && fresh(selectedIndices)
      ensures this.dungeonOptions == dungeonOptions && this.loader == loader
      ensures selectedIndices[..] == [0, 0, 0]
      ensures !hasChosenDungeon && !menuOpen
    {
      this.dungeonOptions := dungeonOptions;
      this.loader := loader;
      selectedIndices := new nat[3](_ => 0);
      hasChosenDungeon := false;
      menuOpen := false;
    }

    /** `SelectRandomDungeons`. With the boss unlocked every button shows
        the first boss offer (nothing changes when there is none). Otherwise
        up to three offers are shown in order, or, with more than three,
        three different non-boss offers are drawn. `d` counts the draws.
        With fewer than three non-boss offers among more than three the
        draw from an empty list throws: `completed` is false and only the
        buttons before it were filled. */
    method SelectRandomDungeons(bossAvailable: bool, rand: nat -> nat, d0: nat) returns (d: nat, completed: bool)
      requires Valid()
      modifies selectedIndices
      ensures bossAvailable ==> d == d0 && completed
      ensures bossAvailable && FirstBoss(dungeonOptions, 0).Some? ==>
        var b := FirstBoss(dungeonOptions, 0).value;
        selectedIndices[..] == [b, b, b]
      ensures bossAvailable && FirstBoss(dungeonOptions, 0).None? ==>
        selectedIndices[..] == old(selectedIndices[..])
      ensures !bossAvailable && |dungeonOptions| <= 3 ==>
        && d == d0 && completed
        && (forall k :: 0 <= k < |dungeonOptions| ==> selectedIndices[k] == k)
        && selectedIndices[|dungeonOptions|..] == old(selectedIndices[|dungeonOptions|..])
      ensures !bossAvailable && |dungeonOptions| > 3 ==>
        var pool := NonBossIndices(dungeonOptions, |dungeonOptions|);
        var n := Min(3, |pool|);
        && completed == (|pool| >= 3)
        && d == d0 + n + (if completed then 0 else 1)
        && selectedIndices[..] == DrawSteps(pool, n, rand, d0).offers + old(selectedIndices[..])[n..]
    {
      d, completed := d0, true;
      if bossAvailable {
        var i := 0;
        while i < |dungeonOptions|
          invariant 0 <= i <= |dungeonOptions|
          invariant FirstBoss(dungeonOptions, 0) == FirstBoss(dungeonOptions, i)
          invariant selectedIndices[..] == old(selectedIndices[..])
        {
          if dungeonOptions[i].isBossDungeon {
            FillWith(i);
            return;
          }
          i := i + 1;
        }
        return;
      }
      if |dungeonOptions| <= 3 {
        var i := 0;
        while i < |dungeonOptions|
          invariant 0 <= i <= |dungeonOptions|
          invariant forall k :: 0 <= k < i ==> selectedIndices[k] == k
          invariant selectedIndices[i..] == old(selectedIndices[i..])
        {
          selectedIndices[i] := i;
          i := i + 1;
        }
        return;
      }
      var availableIndices := CollectNonBoss();
      d, completed := DrawThree(availableIndices, rand, d0);
    }

    /** The boss branch's inner loop: every button shows offer `i`. */
    method FillWith(i: nat)
      requires Valid()
      modifies selectedIndices
      ensures selectedIndices[..] == [i, i, i]
    {
      var j := 0;
      while j < 3
        invariant 0 <= j <= 3
        invariant forall k :: 0 <= k < j ==> selectedIndices[k] == i
      {
        selectedIndices[j] := i;
        j := j + 1;
      }
    }

    /** The loop that lists the non-boss offers. */
    method CollectNonBoss() returns (availableIndices: seq<nat>)
      ensures availableIndices == NonBossIndices(dungeonOptions, |dungeonOptions|)
    {
      availableIndices := [];
      var i := 0;
      while i < |dungeonOptions|
        invariant 0 <= i <= |dungeonOptions|
        invariant availableIndices == NonBossIndices(dungeonOptions, i)
      {
        if !dungeonOptions[i].isBossDungeon {
          availableIndices := availableIndices + [i];
        }
        i := i + 1;
      }
    }

    /** The three draws of the normal selection, each taking its offer out
        of the list; a draw from an empty list throws. */
    method DrawThree(pool: seq<nat>, rand: nat -> nat, d0: nat) returns (d: nat, completed: bool)
      requires Valid()
      modifies selectedIndices
      ensures completed == (|pool| >= 3)
      ensures d == d0 + Min(3, |pool|) + (if completed then 0 else 1)
      ensures selectedIndices[..] == DrawSteps(pool, Min(3, |pool|), rand, d0).offers + old(selectedIndices[..])[Min(3, |pool|)..]
    {
      var availableIndices := pool;
      ghost var drawn: seq<nat> := [];
      d := d0;
      var i := 0;
      while i < 3
        invariant 0 <= i <= 3 && i <= |pool|
        invariant d == d0 + i
        invariant DrawSteps(pool, i, rand, d0) == Drawing(drawn, availableIndices)
        invariant selectedIndices[..] == drawn + old(selectedIndices[..])[i..]
      {
        var randomIndex := Pick(rand, d, |availableIndices|);
        d := d + 1;
        if |availableIndices| == 0 {
          completed := false;
          return;
        }
        DrawStepsStep(pool, i, rand, d0, drawn, availableIndices, randomIndex);
        ghost var before := selectedIndices[..];
        selectedIndices[i] := availableIndices[randomIndex];
        assert selectedIndices[..] == before[i := availableIndices[randomIndex]];
        ReplaceNext(before, drawn, old(selectedIndices[..])[i..], availableIndices[randomIndex]);
        assert old(selectedIndices[..])[i..][1..] == old(selectedIndices[..])[i + 1..];
        drawn := drawn + [availableIndices[randomIndex]];
        availableIndices := RemoveAt(availableIndices, randomIndex);
        i := i + 1;
      }
      completed := true;
    }

    /** `ChooseDungeon`. Nothing happens for a button outside the three,
        once a dungeon is chosen, or when the button shows no existing
        offer. Otherwise the offer's data, with a room count drawn between
        its bounds, is handed to the loader and the choice is recorded.
        Without a loader the store throws after the draw. */
    method ChooseDungeon(buttonIndex: int, rand: nat -> nat, d0: nat) returns (d: nat, completed: bool)
      requires Valid()
      modifies this`hasChosenDungeon, this`menuOpen, loader
      ensures Valid()
      ensures buttonIndex < 0 || buttonIndex >= 3 || old(hasChosenDungeon)
              || selectedIndices[buttonIndex] >= |dungeonOptions| ==>
        && d == d0 && completed
        && unchanged(this) && (loader != null ==> unchanged(loader))
      ensures 0 <= buttonIndex < 3 && !old(hasChosenDungeon) && selectedIndices[buttonIndex] < |dungeonOptions| ==>
        && d == d0 + 1
        && completed == (loader != null)
        && (loader == null ==> unchanged(this))
        && (loader != null ==>
              && loader.currentDungeonData == Some(ChosenData(dungeonOptions[selectedIndices[buttonIndex]], rand, d0))
              && hasChosenDungeon && !menuOpen)
    {
      d, completed := d0, true;
      if buttonIndex < 0 || buttonIndex >= selectedIndices.Length || hasChosenDungeon {
        return;
      }
      var dungeonIndex := selectedIndices[buttonIndex];
      if dungeonIndex >= |dungeonOptions| {
        return;
      }
      var selected := dungeonOptions[dungeonIndex];
      var data := DungeonData(selected.dungeonName, selected.upgradeName, selected.upgradeType, selected.upgradeValue,
        RangeInt(rand, d, selected.roomCountMin, selected.roomCountMax + 1));
      d := d + 1;
      if loader == null {
        completed := false;
        return;
      }
      loader.currentDungeonData := Some(data);
      hasChosenDungeon := true;
      menuOpen := false;
    }

    /** `GetSelectedDungeon`: nothing before a choice or without the
        loader's data, else the first offer with the chosen name. */
    function GetSelectedDungeon(): (r: Option<DungeonOption>)
      reads this, loader
      ensures r.Some? ==> r.value in dungeonOptions
      ensures !hasChosenDungeon || loader == null ==> r.None?
    {
      if !hasChosenDungeon || loader == null || loader.currentDungeonData.None? then Option.None
      else FirstNamed(dungeonOptions, loader.currentDungeonData.value.dungeonName)
    }

    /** `ResetDungeonChoice`: forgets the choice and the loader's data. */
    method ResetDungeonChoice()
      modifies this`hasChosenDungeon, loader
      ensures !hasChosenDungeon
      ensures loader != null ==> loader.currentDungeonData.None?
      ensures GetSelectedDungeon().None?
    {
      hasChosenDungeon := false;
      if loader != null {
        loader.currentDungeonData := Option.None;
      }
    }
  }

  /** After a successful choice, the lookup finds the chosen offer itself
      when offer names are different. */
  lemma ChosenOfferIsSelected(s: DungeonSelector, i: nat, data: DungeonData)
    requires i < |s.dungeonOptions|
    requires forall j, k :: 0 <= j < k < |s.dungeonOptions| ==> s.dungeonOptions[j].dungeonName != s.dungeonOptions[k].dungeonName
    requires s.hasChosenDungeon && s.loader != null && s.loader.currentDungeonData == Some(data)
    requires data.dungeonName == s.dungeonOptions[i].dungeonName
    ensures s.GetSelectedDungeon() == Some(s.dungeonOptions[i])
  {
    FirstNamedFindsOffer(s.dungeonOptions, i);
  }
}
