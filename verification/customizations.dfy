/** The customization records the speech service lists, and the
    find-or-create rule that picks the custom model to work on
    (acoustic.js `getAcousticCustomModelId`, words.js and corpus.js
    `getCustomModelId`). */
module Customizations {
  import opened Wrappers

  /** A customization as the service returns it: only the fields the tools
      read are kept. `status` is an arbitrary string; the poller sorts it. */
  datatype Customization = Customization(id: string, name: string, status: string)

  /** An error object handed to a callback. `code` is the `err.code`
      property, `None` when the error carries none (a plain `new Error`). */
  datatype Error = Error(message: string, code: Option<string>)

  /** Index of the first customization called `name`, if any. */
  function FirstIndexNamed(models: seq<Customization>, name: string): (k: Option<nat>)
    ensures k.Some? ==> k.value < |models| && models[k.value].name == name
    ensures k.Some? ==> forall j :: 0 <= j < k.value ==> models[j].name != name
    ensures k.None? ==> forall j :: 0 <= j < |models| ==> models[j].name != name
  {
    if |models| == 0 then None
    else if models[0].name == name then Some(0)
    else
      match FirstIndexNamed(models[1..], name)
      case None => None
      case Some(i) => Some(i + 1)
  }

  /** `customizations.find(m => m.name === name)`: the first customization
      whose name equals `name`, or `None` (JavaScript `undefined`). */
  function FindByName(models: seq<Customization>, name: string): (r: Option<Customization>)
    ensures r.Some? <==> exists j :: 0 <= j < |models| && models[j].name == name
    ensures r.Some? ==> r.value in models && r.value.name == name
    ensures r.Some? ==> exists k :: 0 <= k < |models| && models[k] == r.value
                          && forall j :: 0 <= j < k ==> models[j].name != name
  {
    match FirstIndexNamed(models, name)
    case None => None
    case Some(k) => Some(models[k])
  }

  /** Find-or-create. `listing` is the result of the list call (`None` when it
      produced no result); `created` is what the create call would answer, and
      is consulted only when no listed customization has the configured name.
      The result is the id handed to the callback, `None` standing for
      `callback(null)`. */
  function ChooseModelId(listing: Option<seq<Customization>>, name: string,
                         created: Result<string, Error>): (id: Option<string>)
    ensures listing.Some? && FindByName(listing.value, name).Some? ==>
              id == Some(FindByName(listing.value, name).value.id)
    ensures (listing.None? || FindByName(listing.value, name).None?) ==>
              id == (if created.Ok? then Some(created.value) else None)
  {
    if listing.Some? && FindByName(listing.value, name).Some? then
      Some(FindByName(listing.value, name).value.id)
    else if created.Ok? then Some(created.value)
    else None
  }

  /** When several customizations share the configured name, the one listed
      first wins, whatever follows it. */
  lemma {:induction false} FindByNameFirstWins(before: seq<Customization>, c: Customization,
                                               after: seq<Customization>, name: string)
    requires forall j :: 0 <= j < |before| ==> before[j].name != name
    requires c.name == name
    ensures FindByName(before + [c] + after, name) == Some(c)
  {
    var all := before + [c] + after;
    assert all[|before|] == c;
    assert forall j :: 0 <= j < |before| ==> all[j] == before[j];
  }

  /** Find-or-create stated on the list itself. The first listed
      customization with the configured name supplies the id, whatever the
      create call would answer; with no such customization, or no list, the
      id is the created model's, or none when creation failed. */
  lemma ChooseModelIdFromList(models: seq<Customization>, name: string, created: Result<string, Error>)
    ensures forall k :: 0 <= k < |models| && models[k].name == name
                        && (forall j :: 0 <= j < k ==> models[j].name != name) ==>
              ChooseModelId(Some(models), name, created) == Some(models[k].id)
    ensures (forall j :: 0 <= j < |models| ==> models[j].name != name) ==>
              ChooseModelId(Some(models), name, created)
              == (if created.Ok? then Some(created.value) else None)
    ensures ChooseModelId(None, name, created) == (if created.Ok? then Some(created.value) else None)
  {
    forall k | 0 <= k < |models| && models[k].name == name
               && (forall j :: 0 <= j < k ==> models[j].name != name)
      ensures ChooseModelId(Some(models), name, created) == Some(models[k].id)
    {
      assert models == models[..k] + [models[k]] + models[k + 1..];
      FindByNameFirstWins(models[..k], models[k], models[k + 1..], name);
    }
  }
}
