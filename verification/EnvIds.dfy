/**
  Environment ids of JOS (kern/env.c): an id names a slot of `envs` and a generation, so that the id of
  an environment that is gone does not name the next one in its slot.
 */
module EnvIds {
  const NENV: nat := 1024
  const GENERATION: nat := 4096       // 1 << ENVGENSHIFT, which is 12
  const INT_MIN: int := -0x8000_0000
  const WORD: nat := 0x1_0000_0000

  /** env_id, env_parent_id and env_free_list. */
  datatype Ids = Ids(id: seq<int>, parent: seq<int>, free: seq<nat>)

  /** Two's complement wrap-around to 32 bits. */
  function Wrap(x: int): int {
    (x - INT_MIN) % WORD + INT_MIN
  }

  /** The id that env_alloc gives to slot `e`, whose last id was `old`. */
  function NextId(last: int, e: nat): int {
    var sum := Wrap(last + GENERATION);
    var generation := sum - sum % NENV;
    (if generation <= 0 then GENERATION else generation) + e
  }

  /** ENVX */
  function EnvX(id: int): nat {
    id % NENV
  }

  /** An id that env_alloc has given to slot `e`, or 0 before the first one. */
  predicate GoodId(id: int, e: nat) {
    id == 0 || (GENERATION <= id < -INT_MIN && EnvX(id) == e)
  }

  ghost predicate IdsOk(ids: Ids, envs: seq<int>) {
    && |envs| == NENV && |ids.id| == NENV && |ids.parent| == NENV
    && (forall i, j :: 0 <= i < j < |ids.free| ==> ids.free[i] != ids.free[j])
    && (forall e: nat :: e in ids.free <==> e < NENV && envs[e] == -1)
    && (forall e: nat :: e < NENV ==> GoodId(ids.id[e], e))
    && forall e: nat :: e < NENV && envs[e] != -1 ==> ids.id[e] != 0
  }

  /** A new id is positive, names its slot, and is not the last id of that slot. */
  lemma NextIdFresh(last: int, e: nat)
    requires GoodId(last, e) && e < NENV
    ensures GoodId(NextId(last, e), e) && NextId(last, e) != 0 && NextId(last, e) != last
  {
    var sum := last + GENERATION;
    if last == 0 {
      assert Wrap(sum) == GENERATION;
    } else if sum < -INT_MIN {
      assert Wrap(sum) == sum;
      assert sum % NENV == last % NENV;
    } else {
      assert Wrap(sum) == sum - WORD;
      assert Wrap(sum) < 0;
    }
  }

  /** envid2env: the slot that `envid` names; -1 for -E_BAD_ENV. */
  function EnvOf(ids: Ids, envs: seq<int>, curenv: int, envid: int, checkperm: bool): (e: int)
    requires |envs| == NENV && |ids.id| == NENV && |ids.parent| == NENV && 0 <= curenv < NENV && envs[curenv] != -1
    ensures e == -1 || (0 <= e < NENV && envs[e] != -1)
  {
    if envid == 0 then curenv
    else
      var e := EnvX(envid);
      if envs[e] == -1 || ids.id[e] != envid then -1
      else if checkperm && e != curenv && ids.parent[e] != ids.id[curenv] then -1
      else e
  }

  /** Slot `e` has a live environment with that id, or it is the caller, which 0 stands for. */
  predicate Named(ids: Ids, envs: seq<int>, curenv: int, envid: int, e: nat)
    requires |envs| == NENV && |ids.id| == NENV && e < NENV
  {
    envs[e] != -1 && (envid == ids.id[e] || (envid == 0 && e == curenv))
  }

  /** The permission that the check asks for: to be the environment or its parent. */
  predicate Permitted(ids: Ids, curenv: int, e: nat)
    requires |ids.id| == NENV && |ids.parent| == NENV && 0 <= curenv < NENV && e < NENV
  {
    e == curenv || ids.parent[e] == ids.id[curenv]
  }

  /** With the check the caller gets at itself and its children only, and without it at every live environment. */
  lemma EnvOfIff(ids: Ids, envs: seq<int>, curenv: int, envid: int, checkperm: bool, e: nat)
    requires IdsOk(ids, envs) && 0 <= curenv < NENV && envs[curenv] != -1 && e < NENV
    ensures EnvOf(ids, envs, curenv, envid, checkperm) == e <==> Named(ids, envs, curenv, envid, e) && (checkperm ==> Permitted(ids, curenv, e))
  {
    assert GoodId(ids.id[e], e);
  }

  /** Without the check the answer is -E_BAD_ENV exactly when no live environment has the id. */
  lemma NoEnvIff(ids: Ids, envs: seq<int>, curenv: int, envid: int)
    requires IdsOk(ids, envs) && 0 <= curenv < NENV && envs[curenv] != -1
    ensures EnvOf(ids, envs, curenv, envid, false) == -1 <==> forall e: nat :: e < NENV ==> !Named(ids, envs, curenv, envid, e)
    ensures forall e: nat :: e < NENV ==> (Named(ids, envs, curenv, envid, e) <==> EnvOf(ids, envs, curenv, envid, false) == e)
  {
    hide IdsOk, EnvOf, Named;
    IdsLength(ids, envs);
    forall e: nat | e < NENV ensures Named(ids, envs, curenv, envid, e) <==> EnvOf(ids, envs, curenv, envid, false) == e {
      EnvOfIff(ids, envs, curenv, envid, false, e);
    }
    var d := EnvOf(ids, envs, curenv, envid, false);
    if d != -1 {
      EnvOfIff(ids, envs, curenv, envid, false, d);
    }
  }

  lemma IdsLength(ids: Ids, envs: seq<int>)
    requires IdsOk(ids, envs)
    ensures |envs| == NENV && |ids.id| == NENV && |ids.parent| == NENV
  {
  }

  /** env_alloc takes the first slot of env_free_list. */
  lemma SlotTaken(ids: Ids, envs: seq<int>, d: int, parentId: int)
    requires IdsOk(ids, envs) && ids.free != [] && d != -1
    ensures var e := ids.free[0];
      && e < NENV && envs[e] == -1
      && IdsOk(Ids(ids.id[e := NextId(ids.id[e], e)], ids.parent[e := parentId], ids.free[1..]), envs[e := d])
  {
    var e := ids.free[0];
    assert e in ids.free;
    var rest := ids.free[1..];
    assert ids.free == [e] + rest;
    NextIdFresh(ids.id[e], e);
    hide NextId;
    forall g: nat ensures g in rest <==> g < NENV && envs[e := d][g] == -1 {
      assert g in rest <==> g in ids.free && g != e;
    }
  }

  /** env_free puts the slot back; its old id names nothing until the slot is taken, and nothing afterwards. */
  lemma SlotFreed(ids: Ids, envs: seq<int>, e: nat)
    requires IdsOk(ids, envs) && e < NENV && envs[e] != -1
    ensures IdsOk(ids.(free := [e] + ids.free), envs[e := -1])
  {
    var more := [e] + ids.free;
    assert e !in ids.free;
    forall i, j | 0 <= i < j < |more| ensures more[i] != more[j] {
      assert more[j] == ids.free[j - 1] && ids.free[j - 1] in ids.free;
    }
    forall g: nat ensures g in more <==> g < NENV && envs[e := -1][g] == -1 {
    }
  }

  /** The id of an environment that is gone does not name the one that takes its slot. */
  lemma StaleId(ids: Ids, envs: seq<int>, curenv: int, e: nat, d: int, parentId: int, checkperm: bool)
    requires IdsOk(ids, envs) && e < NENV && envs[e] != -1 && d != -1 && 0 <= curenv < NENV && curenv != e && envs[curenv] != -1
    ensures var gone := ids.(free := [e] + ids.free);
      var next := Ids(gone.id[e := NextId(gone.id[e], e)], gone.parent[e := parentId], gone.free[1..]);
      && EnvOf(gone, envs[e := -1], curenv, ids.id[e], checkperm) == -1
      && EnvOf(next, envs[e := d], curenv, ids.id[e], checkperm) == -1
  {
    NextIdFresh(ids.id[e], e);
    hide NextId;
    assert GoodId(ids.id[e], e);
  }
}
