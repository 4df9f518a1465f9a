/** Child profiles (`useChildProfiles`): a parent's list of profiles, kept in component
    state and mirrored to browser storage under a per-parent key. The list operations
    are pure functions; `ProfileStore` is the hook's state and the storage it writes. */
module ChildProfiles {
  import opened Wrappers
  import opened Strings
  import Seqs

  /** A profile. `gender` is absent or one of `boy`, `girl`, `other`; `readingLevel` and
      `freeFormInterests` are read by the story personaliser although the interface does
      not declare them, so they are optional here. */
  datatype ChildProfile = ChildProfile(
    id: string,
    name: string,
    age: int,
    gender: Option<string>,
    interests: seq<string>,
    createdAt: string,
    parentEmail: string,
    readingLevel: Option<string>,
    freeFormInterests: Option<string>)

  /** What the form submits: a profile without `id`, `createdAt` and `parentEmail`. */
  datatype ProfileInput = ProfileInput(
    name: string,
    age: int,
    gender: Option<string>,
    interests: seq<string>,
    readingLevel: Option<string>,
    freeFormInterests: Option<string>)

  /** A partial profile: each present field overrides the profile's own. */
  datatype ProfileUpdate = ProfileUpdate(
    id: Option<string>,
    name: Option<string>,
    age: Option<int>,
    gender: Option<Option<string>>,
    interests: Option<seq<string>>,
    createdAt: Option<string>,
    parentEmail: Option<string>,
    readingLevel: Option<Option<string>>,
    freeFormInterests: Option<Option<string>>)

  const STORAGE_KEY_PREFIX: string := "child-profiles-"

  function StorageKey(parentEmail: string): (k: string)
    ensures StartsWith(k, STORAGE_KEY_PREFIX) && k[|STORAGE_KEY_PREFIX|..] == parentEmail
  {
    STORAGE_KEY_PREFIX + parentEmail
  }

  /** The profile `addProfile` builds: the input's fields, then `id` (the clock in
      milliseconds, as text), `createdAt` and `parentEmail`. */
  function NewProfile(input: ProfileInput, now: int, createdAt: string, parentEmail: string): (p: ChildProfile)
    ensures p.id == IntToString(now) && p.createdAt == createdAt && p.parentEmail == parentEmail
    ensures p.name == input.name && p.age == input.age && p.gender == input.gender && p.interests == input.interests
    ensures p.readingLevel == input.readingLevel && p.freeFormInterests == input.freeFormInterests
  {
    ChildProfile(IntToString(now), input.name, input.age, input.gender, input.interests, createdAt, parentEmail,
                 input.readingLevel, input.freeFormInterests)
  }

  /** `{ ...p, ...updates }` */
  function Merge(p: ChildProfile, u: ProfileUpdate): ChildProfile {
    ChildProfile(
      u.id.GetOr(p.id), u.name.GetOr(p.name), u.age.GetOr(p.age), u.gender.GetOr(p.gender),
      u.interests.GetOr(p.interests), u.createdAt.GetOr(p.createdAt), u.parentEmail.GetOr(p.parentEmail),
      u.readingLevel.GetOr(p.readingLevel), u.freeFormInterests.GetOr(p.freeFormInterests))
  }

  /** The empty update, which changes nothing. */
  const NO_CHANGE: ProfileUpdate := ProfileUpdate(None, None, None, None, None, None, None, None, None)

  lemma MergeNothing(p: ChildProfile)
    ensures Merge(p, NO_CHANGE) == p
  {
  }

  /** `profiles.map(p => p.id === id ? { ...p, ...updates } : p)` */
  function UpdateProfiles(profiles: seq<ChildProfile>, id: string, u: ProfileUpdate): (r: seq<ChildProfile>)
    ensures |r| == |profiles|
    ensures forall i :: 0 <= i < |profiles| && profiles[i].id == id ==> r[i] == Merge(profiles[i], u)
    ensures forall i :: 0 <= i < |profiles| && profiles[i].id != id ==> r[i] == profiles[i]
  {
    seq(|profiles|, i requires 0 <= i < |profiles| => if profiles[i].id == id then Merge(profiles[i], u) else profiles[i])
  }

  /** `profiles.filter(p => p.id !== id)` */
  function DeleteProfiles(profiles: seq<ChildProfile>, id: string): (r: seq<ChildProfile>)
    ensures |r| <= |profiles|
    ensures forall i :: 0 <= i < |r| ==> r[i].id != id
    ensures forall p :: p in profiles && p.id != id ==> p in r
    ensures forall p :: p in r ==> p in profiles
  {
    if profiles == [] then []
    else (if profiles[0].id == id then [] else [profiles[0]]) + DeleteProfiles(profiles[1..], id)
  }

  /** The profiles that stay are exactly the others, in their order and with their
      multiplicity: what `filter` keeps. */
  lemma {:induction false} DeleteProfilesFilters(profiles: seq<ChildProfile>, id: string)
    ensures Seqs.SubsequenceOf(DeleteProfiles(profiles, id), profiles)
    ensures forall p :: multiset(DeleteProfiles(profiles, id))[p] == if p.id == id then 0 else multiset(profiles)[p]
    decreases |profiles|
  {
    if profiles != [] {
      var rest := DeleteProfiles(profiles[1..], id);
      DeleteProfilesFilters(profiles[1..], id);
      Seqs.SubsequenceCons(rest, profiles);
      Seqs.MultisetCons(profiles);
      if profiles[0].id != id {
        assert DeleteProfiles(profiles, id) == [profiles[0]] + rest;
        assert multiset([profiles[0]] + rest) == multiset{profiles[0]} + multiset(rest);
      } else {
        assert DeleteProfiles(profiles, id) == rest;
      }
    }
  }

  /** Deleting works piece by piece, so the profiles that stay keep their relative order. */
  lemma {:induction false} DeleteProfilesAppend(a: seq<ChildProfile>, b: seq<ChildProfile>, id: string)
    ensures DeleteProfiles(a + b, id) == DeleteProfiles(a, id) + DeleteProfiles(b, id)
  {
    if a != [] {
      Seqs.HeadOfAppend(a, b);
      DeleteProfilesAppend(a[1..], b, id);
      var head := if a[0].id == id then [] else [a[0]];
      Seqs.Assoc(head, DeleteProfiles(a[1..], id), DeleteProfiles(b, id));
    } else {
      Seqs.EmptyAppend(a, b);
    }
  }

  /** Deleting an id no profile has changes nothing. */
  lemma {:induction false} DeleteAbsent(profiles: seq<ChildProfile>, id: string)
    requires forall i :: 0 <= i < |profiles| ==> profiles[i].id != id
    ensures DeleteProfiles(profiles, id) == profiles
  {
    if profiles != [] {
      DeleteAbsent(profiles[1..], id);
    }
  }

  /** Deleting the profile just added, when its id was new, restores the list. */
  lemma AddThenDelete(profiles: seq<ChildProfile>, input: ProfileInput, now: int, createdAt: string, parentEmail: string)
    requires forall i :: 0 <= i < |profiles| ==> profiles[i].id != IntToString(now)
    ensures DeleteProfiles(profiles + [NewProfile(input, now, createdAt, parentEmail)], IntToString(now)) == profiles
  {
    var p := NewProfile(input, now, createdAt, parentEmail);
    DeleteProfilesAppend(profiles, [p], IntToString(now));
    DeleteAbsent(profiles, IntToString(now));
    assert DeleteProfiles([p], IntToString(now)) == [];
  }

  /** Updating an id no profile has changes nothing either. */
  lemma UpdateAbsent(profiles: seq<ChildProfile>, id: string, u: ProfileUpdate)
    requires forall i :: 0 <= i < |profiles| ==> profiles[i].id != id
    ensures UpdateProfiles(profiles, id, u) == profiles
  {
  }

  /** The hook's state: the profile list it shows, and the browser storage it writes to,
      with every stored list under its key. */
  class ProfileStore {
    const parentEmail: string
    var profiles: seq<ChildProfile>
    var storage: map<string, seq<ChildProfile>>

    /** The hook mounts with an empty list over whatever storage already holds. */
    constructor (parentEmail: string, storage: map<string, seq<ChildProfile>>)
      ensures this.parentEmail == parentEmail && this.storage == storage && profiles == []
    {
      this.parentEmail := parentEmail;
      this.storage := storage;
      profiles := [];
    }

    /** The effect that loads the stored list: it replaces the state only when the key
        holds a value. */
    method Load()
      modifies this
      ensures storage == old(storage)
      ensures StorageKey(parentEmail) in storage ==> profiles == storage[StorageKey(parentEmail)]
      ensures StorageKey(parentEmail) !in storage ==> profiles == old(profiles)
    {
      var key := StorageKey(parentEmail);
      if key in storage {
        profiles := storage[key];
      }
    }

    /** `saveProfiles`: the same list goes to storage and to state. */
    method Save(newProfiles: seq<ChildProfile>)
      modifies this
      ensures storage == old(storage)[StorageKey(parentEmail) := newProfiles]
      ensures profiles == newProfiles
    {
      storage := storage[StorageKey(parentEmail) := newProfiles];
      profiles := newProfiles;
    }

    /** `addProfile`: appends the new profile and returns it. */
    method Add(input: ProfileInput, now: int, createdAt: string) returns (p: ChildProfile)
      modifies this
      ensures p == NewProfile(input, now, createdAt, parentEmail)
      ensures profiles == old(profiles) + [p]
      ensures storage == old(storage)[StorageKey(parentEmail) := profiles]
    {
      p := NewProfile(input, now, createdAt, parentEmail);
      Save(profiles + [p]);
    }

    /** `updateProfile` */
    method Update(id: string, u: ProfileUpdate)
      modifies this
      ensures profiles == UpdateProfiles(old(profiles), id, u)
      ensures storage == old(storage)[StorageKey(parentEmail) := profiles]
    {
      Save(UpdateProfiles(profiles, id, u));
    }

    /** `deleteProfile` */
    method Delete(id: string)
      modifies this
      ensures profiles == DeleteProfiles(old(profiles), id)
      ensures storage == old(storage)[StorageKey(parentEmail) := profiles]
    {
      Save(DeleteProfiles(profiles, id));
    }
  }
}
