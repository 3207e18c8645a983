/**
 * The Live2D slice of the UI store, `src/store/live2d.ts`: two independent
 * fields, each with a mutation that sets it, an action that commits that
 * mutation with its payload, and a getter. Mutations run only through
 * `commit`, so the state is always the replay of the committed mutations.
 */
module Live2dStore {

  datatype Live2dStoreState = Live2dStoreState(latestUseCharacterKey: string, isCurrentShowInTalk: bool)

  /** `live2dStoreState`. */
  const InitialState: Live2dStoreState := Live2dStoreState("", false)

  /** A commit, named after its mutation, with its payload. */
  datatype Mutation =
    | LatestUseCharacterKey(key: string)
    | CurrentShowInTalk(isShow: bool)

  /** The two mutation handlers: each sets its own field and no other. */
  function Mutate(s: Live2dStoreState, m: Mutation): (r: Live2dStoreState)
    ensures m.LatestUseCharacterKey? ==>
      r.latestUseCharacterKey == m.key && r.isCurrentShowInTalk == s.isCurrentShowInTalk
    ensures m.CurrentShowInTalk? ==>
      r.isCurrentShowInTalk == m.isShow && r.latestUseCharacterKey == s.latestUseCharacterKey
  {
    match m
    case LatestUseCharacterKey(key) => s.(latestUseCharacterKey := key)
    case CurrentShowInTalk(isShow) => s.(isCurrentShowInTalk := isShow)
  }

  /** The state after committing `ms`, oldest first, to `s`. */
  function Replay(s: Live2dStoreState, ms: seq<Mutation>): Live2dStoreState
  {
    if ms == [] then s else Mutate(Replay(s, ms[..|ms| - 1]), ms[|ms| - 1])
  }

  /** The payload of the most recent `LATEST_USE_CHARACTER_KEY` in `ms`, if any. */
  function LatestKeyIn(ms: seq<Mutation>, otherwise: string): string
  {
    if ms == [] then otherwise
    else if ms[|ms| - 1].LatestUseCharacterKey? then ms[|ms| - 1].key
    else LatestKeyIn(ms[..|ms| - 1], otherwise)
  }

  /** The payload of the most recent `CURRENT_SHOW_IN_TALK` in `ms`, if any. */
  function LatestShowIn(ms: seq<Mutation>, otherwise: bool): bool
  {
    if ms == [] then otherwise
    else if ms[|ms| - 1].CurrentShowInTalk? then ms[|ms| - 1].isShow
    else LatestShowIn(ms[..|ms| - 1], otherwise)
  }

  /** Each field holds what the most recent mutation of that field wrote. */
  lemma {:induction false} ReplaySeesLatest(s: Live2dStoreState, ms: seq<Mutation>)
    ensures Replay(s, ms).latestUseCharacterKey == LatestKeyIn(ms, s.latestUseCharacterKey)
    ensures Replay(s, ms).isCurrentShowInTalk == LatestShowIn(ms, s.isCurrentShowInTalk)
  {
    if ms != [] {
      ReplaySeesLatest(s, ms[..|ms| - 1]);
    }
  }

  /** Committing the same mutation twice is committing it once. */
  lemma MutateIdempotent(s: Live2dStoreState, m: Mutation)
    ensures Mutate(Mutate(s, m), m) == Mutate(s, m)
  {
  }

  /** The mutations of the two fields commute. */
  lemma MutationsCommute(s: Live2dStoreState, key: string, isShow: bool)
    ensures Mutate(Mutate(s, LatestUseCharacterKey(key)), CurrentShowInTalk(isShow))
         == Mutate(Mutate(s, CurrentShowInTalk(isShow)), LatestUseCharacterKey(key))
  {
  }

  class Live2dStoreSlice {
    var latestUseCharacterKey: string
    var isCurrentShowInTalk: bool
    /** Every mutation committed so far, oldest first. */
    ghost var committed: seq<Mutation>

    function State(): Live2dStoreState
      reads this
    {
      Live2dStoreState(latestUseCharacterKey, isCurrentShowInTalk)
    }

    ghost predicate Valid()
      reads this
    {
      State() == Replay(InitialState, committed)
    }

    constructor ()
      ensures Valid() && committed == [] && State() == InitialState
    {
      latestUseCharacterKey := "";
      isCurrentShowInTalk := false;
      committed := [];
    }

    /** `commit(name, payload)`: run the named mutation in place. */
    method Commit(m: Mutation)
      requires Valid()
      modifies this
      ensures Valid()
      ensures committed == old(committed) + [m]
      ensures State() == Mutate(old(State()), m)
    {
      match m {
        case LatestUseCharacterKey(key) =>
          latestUseCharacterKey := key;
        case CurrentShowInTalk(isShow) =>
          isCurrentShowInTalk := isShow;
      }
      committed := committed + [m];
      assert committed[..|committed| - 1] == old(committed);
    }

    /** The `LATEST_USE_CHARACTER_KEY` action: commit the payload unchanged. */
    method LatestUseCharacterKeyAction(key: string)
      requires Valid()
      modifies this
      ensures Valid() && committed == old(committed) + [LatestUseCharacterKey(key)]
      ensures State() == old(State()).(latestUseCharacterKey := key)
    {
      Commit(LatestUseCharacterKey(key));
    }

    /** The `CURRENT_SHOW_IN_TALK` action: commit the payload unchanged. */
    method CurrentShowInTalkAction(isShow: bool)
      requires Valid()
      modifies this
      ensures Valid() && committed == old(committed) + [CurrentShowInTalk(isShow)]
      ensures State() == old(State()).(isCurrentShowInTalk := isShow)
    {
      Commit(CurrentShowInTalk(isShow));
    }

    /** The `LATEST_USE_CHARACTER_KEY` getter: the latest committed key, or "". */
    function LatestUseCharacterKeyGetter(): (key: string)
      reads this
      requires Valid()
      ensures key == LatestKeyIn(committed, "")
    {
      ReplaySeesLatest(InitialState, committed);
      latestUseCharacterKey
    }

    /** The `CURRENT_SHOW_IN_TALK` getter: the latest committed flag, or false. */
    function CurrentShowInTalkGetter(): (isShow: bool)
      reads this
      requires Valid()
      ensures isShow == LatestShowIn(committed, false)
    {
      ReplaySeesLatest(InitialState, committed);
      isCurrentShowInTalk
    }
  }
}
