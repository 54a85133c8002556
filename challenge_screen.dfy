/**
 * The challenge screen: a memoised conversion of the challenge's declarative
 * opponent list into engine AI definitions, and the rule that decides, when a
 * battle finishes, whether the challenge is won or the battle restarts.
 */
module ChallengeScreen {
  import opened Engine

  /** One entry of a challenge's `aiDefList`: where the opponent's AI comes
      from (`"file"` or `"code"`), its name, and its inline code. */
  datatype AiSource = AiSource(source: string, name: string, code: string)

  /** The part of the current challenge the screen reads. */
  datatype Challenge = Challenge(id: string, level: int, aiDefList: seq<AiSource>)

  /** What the screen asks of the outside world when a battle finishes. */
  datatype Effect =
    | RestartBattle
    | CompleteChallenge(challengeId: string)
    | NotifyStatsChallengeComplete(level: int)

  // ---------------------------------------------------------------------------
  // Building AI definitions

  /** The definition built for one entry: a fresh definition, configured
      according to `source`; any other source leaves it unconfigured. */
  function Configure(tank: AiSource): (def: AiDefinition)
    ensures def.Unconfigured? <==> tank.source != "file" && tank.source != "code"
    ensures def.FromFile? <==> tank.source == "file"
    ensures !def.Unconfigured? ==> def.name == tank.name
    ensures def.FromCode? ==> def.code == tank.code
  {
    if tank.source == "file" then FromFile(tank.name)
    else if tank.source == "code" then FromCode(tank.name, tank.code)
    else Unconfigured
  }

  /** The list of definitions a rebuild produces, one per entry, in order. */
  function Template(list: seq<AiSource>): (defs: seq<AiDefinition>)
    ensures |defs| == |list|
  {
    if list == [] then [] else [Configure(list[0])] + Template(list[1..])
  }

  /** Building one more entry appends its definition at the end. */
  lemma {:induction false} TemplateSnoc(list: seq<AiSource>, tank: AiSource)
    ensures Template(list + [tank]) == Template(list) + [Configure(tank)]
  {
    if list == [] {
      assert [] + [tank] == [tank];
    } else {
      assert (list + [tank])[1..] == list[1..] + [tank];
      TemplateSnoc(list[1..], tank);
    }
  }

  /** Positional dispatch: the definition at index `k` is built from entry `k`
      alone, from a file, from code, or left unconfigured. No entry is dropped. */
  lemma {:induction false} TemplateAt(list: seq<AiSource>, k: nat)
    requires k < |list|
    ensures list[k].source == "file" ==> Template(list)[k] == FromFile(list[k].name)
    ensures list[k].source == "code" ==> Template(list)[k] == FromCode(list[k].name, list[k].code)
    ensures list[k].source != "file" && list[k].source != "code" ==> Template(list)[k] == Unconfigured
  {
    if k > 0 {
      TemplateAt(list[1..], k - 1);
    }
  }

  /** The `forEach` loop of a rebuild: one definition pushed per entry. */
  method BuildTemplate(list: seq<AiSource>) returns (defs: seq<AiDefinition>)
    ensures defs == Template(list)
  {
    defs := [];
    for i := 0 to |list|
      invariant defs == Template(list[..i])
    {
      TemplateSnoc(list[..i], list[i]);
      assert list[..i + 1] == list[..i] + [list[i]];
      defs := defs + [Configure(list[i])];
    }
    assert list[..|list|] == list;
  }

  // ---------------------------------------------------------------------------
  // The win rule

  /** ASCII case folding of one character: an upper-case letter becomes its
      lower-case partner, any other character is kept. */
  function LowerChar(c: char): (lower: char)
    ensures !('A' <= lower <= 'Z')
    ensures 'A' <= c <= 'Z' ==> 'a' <= lower <= 'z' && lower as int - c as int == 'a' as int - 'A' as int
    ensures !('A' <= c <= 'Z') ==> lower == c
  {
    if 'A' <= c <= 'Z' then (c as int + 32) as char else c
  }

  /** `toLowerCase` on the ASCII letters: same length, no upper-case letter
      left. */
  function ToLower(s: string): (lower: string)
    ensures |lower| == |s|
    ensures forall i :: 0 <= i < |s| ==> lower[i] == LowerChar(s[i])
    ensures forall i :: 0 <= i < |s| ==> !('A' <= lower[i] <= 'Z')
  {
    seq(|s|, i requires 0 <= i < |s| => LowerChar(s[i]))
  }

  /** The tanks still alive (`energy > 0.0`), in their original order. */
  function Alive(tanks: seq<TankSummary>): (alive: seq<TankSummary>)
    ensures |alive| <= |tanks|
  {
    if tanks == [] then []
    else (if tanks[0].energy > 0.0 then [tanks[0]] else []) + Alive(tanks[1..])
  }

  /** Tank `i` is alive and every other tank is dead. */
  ghost predicate OnlySurvivor(tanks: seq<TankSummary>, i: int)
  {
    0 <= i < |tanks| && tanks[i].energy > 0.0 &&
    forall j :: 0 <= j < |tanks| && j != i ==> tanks[j].energy <= 0.0
  }

  /** No tank is alive exactly when every tank has no energy left. */
  lemma {:induction false} AliveEmpty(tanks: seq<TankSummary>)
    ensures Alive(tanks) == [] <==> forall j :: 0 <= j < |tanks| ==> tanks[j].energy <= 0.0
  {
    if tanks != [] {
      AliveEmpty(tanks[1..]);
      if tanks[0].energy <= 0.0 && Alive(tanks[1..]) == [] {
        forall j | 0 <= j < |tanks| ensures tanks[j].energy <= 0.0 {
          if j > 0 { assert tanks[j] == tanks[1..][j - 1]; }
        }
      }
      if forall j :: 0 <= j < |tanks| ==> tanks[j].energy <= 0.0 {
        forall j | 0 <= j < |tanks[1..]| ensures tanks[1..][j].energy <= 0.0 {
          assert tanks[1..][j] == tanks[j + 1];
        }
      }
    }
  }

  /** Exactly one tank `x` is alive exactly when some index holds `x` as the
      only survivor. */
  lemma {:induction false} AliveOne(tanks: seq<TankSummary>, x: TankSummary)
    ensures Alive(tanks) == [x] <==> exists i :: OnlySurvivor(tanks, i) && tanks[i] == x
  {
    if tanks == [] {
      return;
    }
    var rest := tanks[1..];
    AliveOne(rest, x);
    AliveEmpty(rest);
    if Alive(tanks) == [x] {
      if tanks[0].energy > 0.0 {
        assert Alive(tanks) == [tanks[0]] + Alive(rest);
        assert Alive(rest) == [];
        assert [tanks[0]] == [x];
        assert OnlySurvivor(tanks, 0) by {
          forall j | 0 <= j < |tanks| && j != 0 ensures tanks[j].energy <= 0.0 {
            assert tanks[j] == rest[j - 1];
          }
        }
      } else {
        var i :| OnlySurvivor(rest, i) && rest[i] == x;
        assert OnlySurvivor(tanks, i + 1) by {
          forall j | 0 <= j < |tanks| && j != i + 1 ensures tanks[j].energy <= 0.0 {
            if j > 0 { assert tanks[j] == rest[j - 1]; }
          }
        }
        assert tanks[i + 1] == x;
      }
    }
    if exists i :: OnlySurvivor(tanks, i) && tanks[i] == x {
      var i :| OnlySurvivor(tanks, i) && tanks[i] == x;
      if i == 0 {
        forall j | 0 <= j < |rest| ensures rest[j].energy <= 0.0 {
          assert rest[j] == tanks[j + 1];
        }
        assert Alive(rest) == [];
        assert Alive(tanks) == [tanks[0]] + Alive(rest) == [x];
      } else {
        assert tanks[0].energy <= 0.0;
        assert OnlySurvivor(rest, i - 1) by {
          forall j | 0 <= j < |rest| && j != i - 1 ensures rest[j].energy <= 0.0 {
            assert rest[j] == tanks[j + 1];
          }
        }
        assert rest[i - 1] == x;
        assert Alive(rest) == [x];
        assert Alive(tanks) == Alive(rest);
      }
    }
  }

  /** The filter keeps exactly one tank exactly when one tank is the only
      survivor, and then it keeps that tank. */
  lemma AliveSurvivor(tanks: seq<TankSummary>)
    ensures |Alive(tanks)| == 1 <==> exists i :: OnlySurvivor(tanks, i)
    ensures forall i :: OnlySurvivor(tanks, i) ==> Alive(tanks) == [tanks[i]]
  {
    forall i | OnlySurvivor(tanks, i) ensures Alive(tanks) == [tanks[i]] {
      AliveOne(tanks, tanks[i]);
    }
    if |Alive(tanks)| == 1 {
      var x := Alive(tanks)[0];
      assert Alive(tanks) == [x];
      AliveOne(tanks, x);
    }
  }

  /** The challenge is won when exactly one tank survives and it is the
      player: won exactly when some tank is the only one with energy left and
      its name, lower-cased, is `"player"`. */
  predicate IsWin(result: BattleResult): (won: bool)
    ensures won <==>
      exists i :: OnlySurvivor(result.tankList, i) && ToLower(result.tankList[i].name) == "player"
  {
    AliveSurvivor(result.tankList);
    var alive := Alive(result.tankList);
    |alive| == 1 && ToLower(alive[0].name) == "player"
  }

  /** The three finishing positions of a challenge, decided by the rule. */
  lemma WinExamples()
    ensures IsWin(BattleResult([TankSummary("Player", 5.0), TankSummary("Enemy", 0.0)]))
    ensures !IsWin(BattleResult([TankSummary("Player", 5.0), TankSummary("Enemy", 3.0)]))
    ensures !IsWin(BattleResult([TankSummary("Enemy", 5.0)]))
  {
  }

  // ---------------------------------------------------------------------------
  // The screen

  /**
   * The state of the challenge screen the core touches: whether the challenge
   * has been won, the AI-definition cache (the last opponent list seen and the
   * array built for it) and the log of effects it requested.
   */
  class ChallengeScreen {
    var hasWon: bool
    var lastAiDefList: seq<AiSource>
    var aiDefListTemplateCache: array<AiDefinition>
    var effects: seq<Effect>
    /** How many times the cached array has been rebuilt. */
    ghost var rebuilds: nat

    /** The cached array always holds the definitions built from the last list. */
    ghost predicate Valid()
      reads this, aiDefListTemplateCache
    {
      aiDefListTemplateCache[..] == Template(lastAiDefList)
    }

    /** The cache starts empty, keyed by the empty list. */
    constructor ()
      ensures Valid() && fresh(aiDefListTemplateCache)
      ensures !hasWon && lastAiDefList == [] && aiDefListTemplateCache.Length == 0
      ensures effects == [] && rebuilds == 0
    {
      hasWon := false;
      aiDefListTemplateCache := new AiDefinition[0];
      lastAiDefList := [];
      effects := [];
      rebuilds := 0;
    }

    /**
     * Returns the engine definitions for the challenge's opponents: the cached
     * array itself when the list equals the last one seen, otherwise a fresh
     * array rebuilt from the whole list, which becomes the new cache.
     */
    method GetAiDefListTemplate(challenge: Challenge) returns (defs: array<AiDefinition>)
      requires Valid()
      modifies this
      ensures Valid()
      ensures defs[..] == Template(challenge.aiDefList)
      ensures defs == aiDefListTemplateCache && lastAiDefList == challenge.aiDefList
      ensures old(lastAiDefList) == challenge.aiDefList ==>
        defs == old(aiDefListTemplateCache) && rebuilds == old(rebuilds)
      ensures old(lastAiDefList) != challenge.aiDefList ==>
        fresh(defs) && rebuilds == old(rebuilds) + 1
      ensures hasWon == old(hasWon) && effects == old(effects)
    {
      if lastAiDefList == challenge.aiDefList {
        return aiDefListTemplateCache;
      }
      lastAiDefList := challenge.aiDefList;
      var built := BuildTemplate(challenge.aiDefList);
      defs := new AiDefinition[|built|](i requires 0 <= i < |built| => built[i]);
      aiDefListTemplateCache := defs;
      rebuilds := rebuilds + 1;
    }

    /**
     * Handles the end of a battle: on a win, records it and reports the
     * completed challenge; otherwise asks for the battle to be restarted.
     */
    method OnChallengeComplete(result: BattleResult, challenge: Challenge)
      requires Valid()
      modifies this
      ensures Valid()
      ensures IsWin(result) ==>
        hasWon && effects == old(effects) + [CompleteChallenge(challenge.id), NotifyStatsChallengeComplete(challenge.level)]
      ensures !IsWin(result) ==> hasWon == old(hasWon) && effects == old(effects) + [RestartBattle]
      ensures lastAiDefList == old(lastAiDefList) && aiDefListTemplateCache == old(aiDefListTemplateCache)
      ensures rebuilds == old(rebuilds)
    {
      var alive := Alive(result.tankList);
      if |alive| != 1 || ToLower(alive[0].name) != "player" {
        effects := effects + [RestartBattle];
        return;
      }
      hasWon := true;
      effects := effects + [CompleteChallenge(challenge.id)];
      effects := effects + [NotifyStatsChallengeComplete(challenge.level)];
    }
  }

  /** Two renders of the same challenge on a fresh screen: the second returns
      the very array the first built. */
  method RenderTwice(challenge: Challenge) returns (first: array<AiDefinition>, second: array<AiDefinition>)
    ensures first == second
    ensures second[..] == Template(challenge.aiDefList)
  {
    var screen := new ChallengeScreen();
    first := screen.GetAiDefListTemplate(challenge);
    second := screen.GetAiDefListTemplate(challenge);
  }

  /** A first render with no opponents returns the initial empty cache and
      builds nothing; a render after the list changed returns a new array. */
  method RenderChanged(before: Challenge, after: Challenge)
    returns (first: array<AiDefinition>, second: array<AiDefinition>,
             ghost initial: array<AiDefinition>, ghost builtFirst: nat, ghost builtSecond: nat)
    requires before.aiDefList == [] && after.aiDefList != []
    ensures first == initial && first.Length == 0 && builtFirst == 0
    ensures first != second && builtSecond == 1
    ensures second[..] == Template(after.aiDefList)
  {
    var screen := new ChallengeScreen();
    initial := screen.aiDefListTemplateCache;
    first := screen.GetAiDefListTemplate(before);
    builtFirst := screen.rebuilds;
    second := screen.GetAiDefListTemplate(after);
    builtSecond := screen.rebuilds;
  }
}
