/** The profile registry of the newer revision: a dictionary from profile name
    to profile, filled at import time. */
module Registry {
  import opened Wrappers
  import opened Values
  import opened Profiles

  /** `Registry`. `profiles` is the dictionary and `order` its keys in
      insertion order, which is the order Python's dictionaries keep. */
  class Registry {
    var profiles: map<string, Profile>
    var order: seq<string>

    /** `order` lists every key exactly once. */
    ghost predicate Valid()
      reads this
    {
      && (forall i | 0 <= i < |order| :: order[i] in profiles)
      && (forall k | k in profiles :: k in order)
      && (forall i, j | 0 <= i < j < |order| :: order[i] != order[j])
    }

    constructor()
      ensures Valid() && profiles == map[] && order == []
    {
      profiles := map[];
      order := [];
    }

    /** `add_profile`: store the profile under its name, replacing an earlier
      entry of that name; a new name goes to the end of the key order. */
    method AddProfile(p: Profile)
      requires Valid()
      modifies this
      ensures Valid()
      ensures profiles == old(profiles)[Name(p) := p]
      ensures order == if Name(p) in old(profiles) then old(order) else old(order) + [Name(p)]
    {
      if Name(p) !in profiles {
        order := order + [Name(p)];
      }
      profiles := profiles[Name(p) := p];
    }

    /** `get_distributions`: every registered name once, in insertion order. */
    method GetDistributions() returns (names: seq<string>)
      requires Valid()
      ensures names == order
      ensures forall k :: k in names <==> k in profiles
      ensures forall i, j | 0 <= i < j < |names| :: names[i] != names[j]
    {
      names := order;
    }

    /** `get_profile`: the profile stored under `name`; an unknown name
      raises `KeyError`. */
    method GetProfile(name: string) returns (r: Result<Profile, PyError>)
      ensures r.Ok? <==> name in profiles
      ensures r.Ok? ==> r.value == profiles[name]
      ensures r.Err? ==> r.error == KeyError
    {
      if name in profiles {
        r := Ok(profiles[name]);
      } else {
        r := Err(KeyError);
      }
    }
  }

  /** The registrations at import time: the three Ubuntu profiles, in order. */
  method LoadRegistry() returns (reg: Registry)
    ensures fresh(reg) && reg.Valid()
    ensures reg.order == ["ubuntu-20.04", "ubuntu-21.04", "ubuntu-21.10"]
    ensures reg.profiles == map["ubuntu-20.04" := Ubuntu2004, "ubuntu-21.04" := Ubuntu2104, "ubuntu-21.10" := Ubuntu2110]
  {
    reg := new Registry();
    reg.AddProfile(Ubuntu2004);
    NameInjective(Ubuntu2104, Ubuntu2004);
    reg.AddProfile(Ubuntu2104);
    NameInjective(Ubuntu2110, Ubuntu2004);
    NameInjective(Ubuntu2110, Ubuntu2104);
    reg.AddProfile(Ubuntu2110);
  }
}
