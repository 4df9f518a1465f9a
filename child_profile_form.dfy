/** The profile form's state: name, age, gender and the chosen interests. Interests are
    toggled on and off, and the form submits only with a non-blank name and at least one
    interest. */
module ChildProfileForm {
  import opened Wrappers
  import opened Strings
  import ChildProfiles
  import Seqs

  const DEFAULT_AGE: int := 5
  const DEFAULT_GENDER: string := "boy"

  /** `list.filter(i => i !== x)` */
  function RemoveAll(list: seq<string>, x: string): (r: seq<string>)
    ensures x !in r
    ensures forall y :: y != x ==> (y in r <==> y in list)
    ensures |r| <= |list|
    ensures Seqs.SubsequenceOf(r, list)
    ensures forall y :: multiset(r)[y] == if y == x then 0 else multiset(list)[y]
  {
    if list == [] then []
    else
      var rest := RemoveAll(list[1..], x);
      Seqs.SubsequenceCons(rest, list);
      Seqs.MultisetCons(list);
      if list[0] == x then rest
      else
        assert multiset([list[0]] + rest) == multiset{list[0]} + multiset(rest);
        [list[0]] + rest
  }

  /** `toggleInterest`: remove every occurrence of a chosen interest, or append one that
      is not chosen. */
  function ToggleInterest(interests: seq<string>, interest: string): (r: seq<string>)
    ensures interest in interests ==> interest !in r
    ensures interest !in interests ==> r == interests + [interest]
    ensures forall y :: y != interest ==> (y in r <==> y in interests)
  {
    if interest in interests then RemoveAll(interests, interest) else interests + [interest]
  }

  predicate NoDuplicates(list: seq<string>) {
    forall i, j :: 0 <= i < j < |list| ==> list[i] != list[j]
  }

  lemma {:induction false} RemoveAllAppend(a: seq<string>, b: seq<string>, x: string)
    ensures RemoveAll(a + b, x) == RemoveAll(a, x) + RemoveAll(b, x)
  {
    if a == [] {
      Seqs.EmptyAppend(a, b);
    } else {
      Seqs.HeadOfAppend(a, b);
      RemoveAllAppend(a[1..], b, x);
      var head := if a[0] == x then [] else [a[0]];
      Seqs.Assoc(head, RemoveAll(a[1..], x), RemoveAll(b, x));
    }
  }

  lemma {:induction false} RemoveAbsent(list: seq<string>, x: string)
    requires x !in list
    ensures RemoveAll(list, x) == list
  {
    if list != [] {
      assert x !in list[1..];
      RemoveAbsent(list[1..], x);
    }
  }

  /** Toggling an interest that is not chosen, twice, restores the list. */
  lemma ToggleTwiceRestores(interests: seq<string>, interest: string)
    requires interest !in interests
    ensures ToggleInterest(ToggleInterest(interests, interest), interest) == interests
  {
    RemoveAllAppend(interests, [interest], interest);
    RemoveAbsent(interests, interest);
    assert RemoveAll([interest], interest) == [];
  }

  lemma {:induction false} RemoveAllKeepsNoDuplicates(list: seq<string>, x: string)
    requires NoDuplicates(list)
    ensures NoDuplicates(RemoveAll(list, x))
  {
    if list != [] {
      var rest := list[1..];
      assert NoDuplicates(rest);
      RemoveAllKeepsNoDuplicates(rest, x);
      assert list[0] !in rest;
      if list[0] != x {
        assert list[0] !in RemoveAll(rest, x);
      }
    }
  }

  /** Toggling keeps a list without duplicates free of them. */
  lemma ToggleKeepsNoDuplicates(interests: seq<string>, interest: string)
    requires NoDuplicates(interests)
    ensures NoDuplicates(ToggleInterest(interests, interest))
  {
    if interest in interests {
      RemoveAllKeepsNoDuplicates(interests, interest);
    }
  }

  /** `name.trim() && interests.length > 0` */
  predicate CanSubmit(name: string, interests: seq<string>) {
    Trim(name) != "" && |interests| > 0
  }

  /** The submit button's `disabled` expression. */
  predicate SubmitDisabled(name: string, interests: seq<string>) {
    Trim(name) == "" || |interests| == 0
  }

  lemma DisabledExactlyWhenGuardFails(name: string, interests: seq<string>)
    ensures SubmitDisabled(name, interests) <==> !CanSubmit(name, interests)
  {
  }

  /** The form state. */
  class ProfileForm {
    var name: string
    var age: int
    var gender: string
    var interests: seq<string>

    /** The initial state: the edited profile's values, each falling back when it is
        empty, zero or missing; without a profile, the defaults. */
    constructor (editing: Option<ChildProfiles.ChildProfile>)
      ensures editing.None? ==> name == "" && age == DEFAULT_AGE && gender == DEFAULT_GENDER && interests == []
      ensures editing.Some? ==> name == editing.value.name && interests == editing.value.interests
      ensures editing.Some? ==> age == (if editing.value.age != 0 then editing.value.age else DEFAULT_AGE)
      ensures editing.Some? ==> gender == (if IsSet(editing.value.gender) then editing.value.gender.value else DEFAULT_GENDER)
    {
      if editing.Some? {
        var p := editing.value;
        name := p.name;
        age := if p.age != 0 then p.age else DEFAULT_AGE;
        gender := if IsSet(p.gender) then p.gender.value else DEFAULT_GENDER;
        interests := p.interests;
      } else {
        name := "";
        age := DEFAULT_AGE;
        gender := DEFAULT_GENDER;
        interests := [];
      }
    }

    /** A click on an interest button. */
    method Toggle(interest: string)
      modifies this
      ensures interests == ToggleInterest(old(interests), interest)
      ensures name == old(name) && age == old(age) && gender == old(gender)
      ensures NoDuplicates(old(interests)) ==> NoDuplicates(interests)
    {
      if NoDuplicates(interests) {
        ToggleKeepsNoDuplicates(interests, interest);
      }
      interests := ToggleInterest(interests, interest);
    }

    /** `handleSubmit`: what `onSubmit` receives, when it is called. */
    method Submit() returns (submitted: Option<ChildProfiles.ProfileInput>)
      ensures submitted.Some? <==> CanSubmit(name, interests)
      ensures submitted.Some? ==>
        submitted.value == ChildProfiles.ProfileInput(Trim(name), age, Some(gender), interests, None, None)
      ensures submitted.Some? ==> Trim(submitted.value.name) == submitted.value.name != ""
    {
      if Trim(name) != "" && |interests| > 0 {
        submitted := Some(ChildProfiles.ProfileInput(Trim(name), age, Some(gender), interests, None, None));
        TrimIdempotent(name);
      } else {
        submitted := None;
      }
    }
  }

  lemma TrimIdempotent(s: string)
    ensures Trim(Trim(s)) == Trim(s)
  {
  }
}
