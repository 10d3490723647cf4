/** The ending chosen once the areas are left behind. */
module Endings {

  /** `FinalChoice` stands for the interactive shopkeeper choice that follows
      a defeated contract; the others are the endings `death_ending`,
      `helping_ending`, `exploit_ending` and `neutral_ending`. */
  datatype Ending = DeathEnding | FinalChoice | HelpingEnding | ExploitEnding | NeutralEnding

  /** `flags.get(key)` is truthy: present and not 0 (`True` is stored as 1). */
  predicate Truthy(flags: map<string, int>, key: string) {
    key in flags && flags[key] != 0
  }

  const DefeatedContract := "defeated_contract"
  const HelpedChild := "helped_child"
  const ExploitedChild := "exploited_child"

  /** `compute_ending`: death first, then the defeated contract, then the
      child scene's flags, helping before exploiting, and neutral last. */
  function ComputeEnding(endState: string, flags: map<string, int>): Ending {
    if endState == "dead" then DeathEnding
    else if endState == "boss_defeated" || Truthy(flags, DefeatedContract) then FinalChoice
    else if Truthy(flags, HelpedChild) then HelpingEnding
    else if Truthy(flags, ExploitedChild) then ExploitEnding
    else NeutralEnding
  }

  /** Each ending, exactly when it is reached. */
  lemma EndingCases(endState: string, flags: map<string, int>)
    ensures ComputeEnding(endState, flags) == DeathEnding <==> endState == "dead"
    ensures ComputeEnding(endState, flags) == FinalChoice <==>
      endState != "dead" && (endState == "boss_defeated" || Truthy(flags, DefeatedContract))
    ensures ComputeEnding(endState, flags) == HelpingEnding <==>
      endState !in {"dead", "boss_defeated"} && !Truthy(flags, DefeatedContract)
      && Truthy(flags, HelpedChild)
    ensures ComputeEnding(endState, flags) == ExploitEnding <==>
      endState !in {"dead", "boss_defeated"} && !Truthy(flags, DefeatedContract)
      && !Truthy(flags, HelpedChild) && Truthy(flags, ExploitedChild)
    ensures ComputeEnding(endState, flags) == NeutralEnding <==>
      endState !in {"dead", "boss_defeated"} && !Truthy(flags, DefeatedContract)
      && !Truthy(flags, HelpedChild) && !Truthy(flags, ExploitedChild)
  {
  }

  /** Only the three ending flags matter: setting any other flag, such as
      `ignored_child` or `defeated_warden`, changes nothing. */
  lemma OtherFlagsIgnored(endState: string, flags: map<string, int>, key: string, v: int)
    requires key !in {DefeatedContract, HelpedChild, ExploitedChild}
    ensures ComputeEnding(endState, flags[key := v]) == ComputeEnding(endState, flags)
  {
    assert Truthy(flags[key := v], DefeatedContract) == Truthy(flags, DefeatedContract);
    assert Truthy(flags[key := v], HelpedChild) == Truthy(flags, HelpedChild);
    assert Truthy(flags[key := v], ExploitedChild) == Truthy(flags, ExploitedChild);
  }

  /** The area loop ends only in `dead` or `boss_defeated`, and from those
      two states only the death ending or the final choice can follow. */
  lemma AreaLoopEndings(endState: string, flags: map<string, int>)
    requires endState == "dead" || endState == "boss_defeated"
    ensures ComputeEnding(endState, flags) in {DeathEnding, FinalChoice}
  {
  }
}
