/** The profile registry of the older revision, which also lists versions. */
module LegacyRegistry {
  import opened Wrappers
  import opened Strings
  import opened Values
  import opened LegacyProfiles

  /** `Registry`. `profiles` is the dictionary and `order` its keys in
      insertion order. */
  class LegacyRegistry {
    var profiles: map<string, LegacyProfile>
    var order: seq<string>

    /** `order` lists every key exactly once. */
    ghost predicate Valid()
      reads this
    {
      && (forall i | 0 <= i < |order| :: order[i] in profiles)
      && (forall k | k in profiles :: k in order)
      && (forall i, j | 0 <= i < j < |order| :: order[i] != order[j])
    }

    constructor()
      ensures Valid() && profiles == map[] && order == []
    {
      profiles := map[];
      order := [];
    }

    /** `add_profile`: store the profile under its name, replacing an earlier
      entry of that name; a new name goes to the end of the key order. */
    method AddProfile(p: LegacyProfile)
      requires Valid()
      modifies this
      ensures Valid()
      ensures profiles == old(profiles)[p.name := p]
      ensures order == if p.name in old(profiles) then old(order) else old(order) + [p.name]
    {
      if p.name !in profiles {
        order := order + [p.name];
      }
      profiles := profiles[p.name := p];
    }

    /** `get_distributions`: every registered name once, in insertion order. */
    method GetDistributions() returns (names: seq<string>)
      requires Valid()
      ensures names == order
      ensures forall k :: k in names <==> k in profiles
      ensures forall i, j | 0 <= i < j < |names| :: names[i] != names[j]
    {
      names := order;
    }

    /** `get_versions_for`: whatever `name` is, all registered names in
      ascending order. */
    method GetVersionsFor(name: string) returns (versions: seq<string>)
      requires Valid()
      ensures Sorted(versions)
      ensures multiset(versions) == multiset(order)
      ensures forall k :: k in versions <==> k in profiles
    {
      versions := Sort(order);
      forall k
        ensures k in versions <==> k in order
      {
        assert k in versions <==> k in multiset(versions);
        assert k in order <==> k in multiset(order);
      }
    }

    /** `get_profile`: the profile stored under `name`; an unknown name
      raises `KeyError`. */
    method GetProfile(name: string) returns (r: Result<LegacyProfile, PyError>)
      ensures r.Ok? <==> name in profiles
      ensures r.Ok? ==> r.value == profiles[name]
      ensures r.Err? ==> r.error == KeyError
    {
      if name in profiles {
        r := Ok(profiles[name]);
      } else {
        r := Err(KeyError);
      }
    }
  }

  /** The registration at import time: `Ubuntu2004` alone, which has no
      version, so no registered profile has a usable cache directory. */
  method LoadRegistry() returns (reg: LegacyRegistry)
    ensures fresh(reg) && reg.Valid()
    ensures reg.order == ["ubuntu-20.04"]
    ensures reg.profiles == map["ubuntu-20.04" := Ubuntu2004]
    ensures forall k, base, existing | k in reg.profiles ::
      CheckRequiredFiles(base, reg.profiles[k], existing) == Err(TypeError)
  {
    reg := new LegacyRegistry();
    reg.AddProfile(Ubuntu2004);
    forall base, existing {
      Ubuntu2004HasNoCache(base, existing);
    }
  }
}
