/** The id bookkeeping of `PstatsParser`: every pstats function key
    (file name, line, function name) is given a dense id, and the profile
    holds one function per id handed out. */
module PstatsParser {
  import opened Interning
  import opened Profiles

  /** A pstats function key. */
  datatype FuncKey = FuncKey(filename: string, line: int, name: string)

  class Parser {
    var functionIds: map<FuncKey, int>
    var profile: Profile

    /** The ids are dense and the profile holds exactly one function per
        id, stored under it. */
    ghost predicate Valid()
      reads this, profile
    {
      Dense(functionIds) &&
      (forall id :: id in profile.functions <==> id in functionIds.Values) &&
      KeyedById(profile.functions)
    }

    /** `__init__` without the pstats file: an empty profile and no ids. */
    constructor ()
      ensures Valid() && fresh(profile)
      ensures functionIds == map[] && profile.functions == map[]
    {
      functionIds := map[];
      profile := new Profile();
    }

    /** `get_function`: the function for `key`, created under the next id
        on first sight with the display name `name`. */
    method GetFunction(key: FuncKey, name: string) returns (f: Function)
      requires Valid()
      modifies this, profile
      ensures Valid() && profile == old(profile) && profile.totalTime == old(profile.totalTime)
      ensures (functionIds, f.id) == Intern(old(functionIds), key)
      ensures key in old(functionIds) ==>
        profile.functions == old(profile.functions) && f == profile.functions[f.id]
      ensures key !in old(functionIds) ==>
        f == NewFunction(|old(functionIds)|, name) &&
        profile.functions == old(profile.functions)[f.id := f]
    {
      if key in functionIds {
        var id := functionIds[key];
        f := profile.functions[id];
      } else {
        var id := |functionIds|;
        InternDense(functionIds, key);
        f := NewFunction(id, name);
        assert id !in profile.functions;
        profile.functions := profile.functions[id := f];
        functionIds := functionIds[key := id];
        assert forall v :: v in functionIds.Values <==> v in old(functionIds).Values || v == id;
      }
    }
  }
}
