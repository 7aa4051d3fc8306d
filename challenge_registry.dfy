/**
 * The balance-challenge registry: which users are currently playing the
 * house gauntlet. It is keyed by user id alone, so a user in a challenge
 * in one guild is "in a challenge" in every guild.
 */
module ChallengeRegistry {

  class Manager {
    /** user key -> guild id of the running challenge */
    var active: map<string, string>

    constructor ()
      ensures active == map[]
    {
      active := map[];
    }

    /** is_in_challenge: membership by user alone. */
    predicate IsInChallenge(user: string)
      reads this
    {
      user in active
    }

    /** add_to_challenge: registers (or re-registers) the user for that guild. */
    method AddToChallenge(user: string, guild: string)
      modifies this
      ensures active == old(active)[user := guild]
      ensures IsInChallenge(user)
    {
      active := active[user := guild];
    }

    /** remove_from_challenge: deletes the user when present; an absent user is a no-op. */
    method RemoveFromChallenge(user: string)
      modifies this
      ensures active == old(active) - {user}
      ensures !IsInChallenge(user)
      ensures user !in old(active) ==> active == old(active)
      ensures forall u :: u != user ==> (IsInChallenge(u) <==> old(IsInChallenge(u)))
    {
      if user in active {
        active := active - {user};
      }
    }
  }
}
