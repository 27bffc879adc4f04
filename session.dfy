/** How the controller derives the user profile (App.tsx): a fresh profile on
    registration, and the score award for each completed analysis. */
module Session {
  import opened Types

  /** Points awarded for each completed analysis. */
  const AnalysisAward: int := 15

  /** `{ ...MOCK_USER, name, id }`: the mock profile under the entered name and a new
      id. The location is not stored, and the statistics restart from the mock seed. */
  function RegisteredUser(name: string, freshId: string): (u: User)
    ensures u.name == name && u.id == freshId
    ensures u.email == MockUser.email && u.avatar == MockUser.avatar
    ensures u.stats == MockUser.stats && u.stats.score == 850
  {
    MockUser.(name := name, id := freshId)
  }

  /** The profile after one completed analysis: only the score moves, by the award. */
  function AwardAnalysis(u: User): (r: User)
    ensures r.stats.score == u.stats.score + AnalysisAward
    ensures r.stats.co2Saved == u.stats.co2Saved && r.stats.eWastePrevented == u.stats.eWastePrevented
    ensures r.id == u.id && r.name == u.name && r.email == u.email && r.avatar == u.avatar
  {
    u.(stats := u.stats.(score := u.stats.score + AnalysisAward))
  }

  /** The profile after `n` completed analyses. */
  function AwardMany(u: User, n: nat): User {
    if n == 0 then u else AwardAnalysis(AwardMany(u, n - 1))
  }

  /** The score grows by exactly 15 per completed analysis, and nothing else in the
      profile is ever derived from the analyses. */
  lemma {:induction false} AwardsAccumulate(u: User, n: nat)
    ensures AwardMany(u, n).stats.score == u.stats.score + AnalysisAward * n
    ensures AwardMany(u, n).stats.co2Saved == u.stats.co2Saved
    ensures AwardMany(u, n).stats.eWastePrevented == u.stats.eWastePrevented
    ensures AwardMany(u, n).(stats := u.stats) == u
  {
    if n > 0 {
      AwardsAccumulate(u, n - 1);
    }
  }

  /** The score never goes down: awards only ever add to it. */
  lemma AwardsMonotone(u: User, m: nat, n: nat)
    requires m <= n
    ensures AwardMany(u, m).stats.score <= AwardMany(u, n).stats.score
  {
    AwardsAccumulate(u, m);
    AwardsAccumulate(u, n);
  }
}
