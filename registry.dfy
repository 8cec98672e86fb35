/** Start-up of the adapter: the configured devices with a metered state
    are numbered, given a state-tree id, subscribed to and listed. */
module Registry {
  import opened Values
  import opened Meter

  /** `toLowerCase` on one character, for the ASCII letters. */
  function Lower(c: char): char {
    if 'A' <= c <= 'Z' then (c as int + 32) as char else c
  }

  /** The name in lower case, with every space replaced by an underscore. */
  function Slug(name: string): (r: string)
    ensures |r| == |name|
  {
    seq(|name|, i requires 0 <= i < |name| => if name[i] == ' ' then '_' else Lower(name[i]))
  }

  /** The slug has no spaces and no upper-case letters, and every other
      character of the name is kept where it was. */
  lemma SlugShape(name: string)
    ensures forall i :: 0 <= i < |name| ==> Slug(name)[i] != ' ' && !('A' <= Slug(name)[i] <= 'Z')
    ensures forall i :: 0 <= i < |name| && name[i] != ' ' && !('A' <= name[i] <= 'Z') ==> Slug(name)[i] == name[i]
    ensures forall i :: 0 <= i < |name| && name[i] == ' ' ==> Slug(name)[i] == '_'
  {
  }

  /** Making a slug twice changes nothing more. */
  lemma SlugIdempotent(name: string)
    ensures Slug(Slug(name)) == Slug(name)
  {
    SlugShape(name);
    SlugShape(Slug(name));
  }

  /** The state-tree id of a device: its number in decimal when it has one,
      otherwise the slug of its name. */
  function DeviceId(id: Option<int>, name: string): string {
    if id.None? then Slug(name) else IntToString(id.value)
  }

  /** A numbered device's id is its number in decimal and reads back as that
      number; an unnumbered one gets the slug of its name. */
  lemma DeviceIdShape(id: Option<int>, name: string)
    ensures id.Some? && id.value >= 0 ==>
      DeviceId(id, name) == NatToString(id.value) && AllDigits(DeviceId(id, name))
      && ParseNat(DeviceId(id, name)) == id.value
    ensures id.None? ==> |DeviceId(id, name)| == |name| && ' ' !in DeviceId(id, name)
  {
    if id.Some? && id.value >= 0 {
      ParseNatToString(id.value);
    }
    if id.None? {
      SlugShape(name);
    }
  }

  /** A device created by `createDevice`: its state-tree id and its
      configuration, numbered by its place in the configuration list. */
  datatype Registration = Registration(id: string, config: DeviceConfig)

  /** The devices the `ready` handler creates, in configuration order: those
      whose metered state is not empty, each numbered by its index. */
  function Registered(configs: seq<DeviceConfig>): seq<Registration>
    decreases |configs|
  {
    if configs == [] then []
    else
      var i := |configs| - 1;
      Registered(configs[..i])
        + (if configs[i].state != "" then [Registration(NatToString(i), configs[i].(id := Some(i)))] else [])
  }

  /** The `ready` handler. `configs` is None when no device list is
      configured; `devices` is None when nothing is listed, `subscribed` are
      the metered states subscribed to. */
  method Ready(configs: Option<seq<DeviceConfig>>) returns (devices: Option<seq<Registration>>, subscribed: seq<string>)
    ensures configs.None? || configs.value == [] <==> devices.None?
    ensures devices.Some? ==> devices.value == Registered(configs.value)
    ensures devices.Some? ==> subscribed == seq(|devices.value|, k requires 0 <= k < |devices.value| => devices.value[k].config.state)
    ensures devices.None? ==> subscribed == []
  {
    subscribed := [];
    if configs.None? || |configs.value| == 0 {
      return None, subscribed;
    }
    var list: seq<Registration> := [];
    var all := configs.value;
    for i := 0 to |all|
      invariant list == Registered(all[..i])
      invariant subscribed == seq(|list|, k requires 0 <= k < |list| => list[k].config.state)
    {
      assert all[..i + 1][..i] == all[..i];
      if all[i].state != "" {
        var device := all[i].(id := Some(i));
        assert DeviceId(device.id, device.name) == NatToString(i);
        list := list + [Registration(DeviceId(device.id, device.name), device)];
        subscribed := subscribed + [device.state];
      }
    }
    assert all[..|all|] == all;
    return Some(list), subscribed;
  }

  /** Every registered device comes from a configuration entry with a
      non-empty metered state, carries that entry's index as its id and in
      its configuration, and keeps the rest of the configuration. */
  lemma {:induction false} RegisteredSound(configs: seq<DeviceConfig>, r: Registration)
    requires r in Registered(configs)
    ensures exists i :: 0 <= i < |configs| && configs[i].state != ""
                        && r == Registration(NatToString(i), configs[i].(id := Some(i)))
    decreases |configs|
  {
    var i := |configs| - 1;
    var p := configs[..i];
    if r in Registered(p) {
      RegisteredSound(p, r);
      var j :| 0 <= j < |p| && p[j].state != "" && r == Registration(NatToString(j), p[j].(id := Some(j)));
      assert configs[j] == p[j];
    } else {
      assert configs[i].state != "" && r == Registration(NatToString(i), configs[i].(id := Some(i)));
    }
  }

  /** Every configuration entry with a non-empty metered state is
      registered. */
  lemma {:induction false} RegisteredComplete(configs: seq<DeviceConfig>, i: nat)
    requires i < |configs| && configs[i].state != ""
    ensures Registration(NatToString(i), configs[i].(id := Some(i))) in Registered(configs)
    decreases |configs|
  {
    var n := |configs| - 1;
    if i < n {
      RegisteredComplete(configs[..n], i);
    }
  }

  /** Each registration carries an index below `n` and has that index, in
      decimal, as its id. */
  predicate Numbered(rs: seq<Registration>, n: nat) {
    forall k :: 0 <= k < |rs| ==>
      (&& rs[k].config.id.Some? && 0 <= rs[k].config.id.value < n
       && rs[k].id == NatToString(rs[k].config.id.value))
  }

  /** The indices of the registrations increase strictly. */
  predicate Increasing(rs: seq<Registration>) {
    forall j, k :: 0 <= j < k < |rs| ==>
      (rs[j].config.id.Some? && rs[k].config.id.Some? && rs[j].config.id.value < rs[k].config.id.value)
  }

  /** The ids of the registered devices are the indices of their entries, in
      increasing order. */
  lemma {:induction false} RegisteredOrdered(configs: seq<DeviceConfig>)
    ensures Numbered(Registered(configs), |configs|) && Increasing(Registered(configs))
    decreases |configs|
  {
    if configs != [] {
      var i := |configs| - 1;
      var p := configs[..i];
      RegisteredOrdered(p);
      var rp := Registered(p);
      var rs := Registered(configs);
      assert forall k :: 0 <= k < |rp| ==> rs[k] == rp[k];
      assert forall k :: |rp| <= k < |rs| ==> rs[k].config.id == Some(i) && rs[k].id == NatToString(i);
    }
  }

  /** No two registered devices share a state-tree id. */
  lemma RegisteredIdsDistinct(configs: seq<DeviceConfig>)
    ensures var rs := Registered(configs);
      forall j, k :: 0 <= j < k < |rs| ==> rs[j].id != rs[k].id
  {
    var rs := Registered(configs);
    RegisteredOrdered(configs);
    forall j, k | 0 <= j < k < |rs|
      ensures rs[j].id != rs[k].id
    {
      NatToStringInjective(rs[j].config.id.value, rs[k].config.id.value);
    }
  }
}
