/** The application-profile cargo features and the order in which every `cfg` chain of the
    framework tests them. A build's enabled cargo features are a set of names. */
module Profiles {
  import opened Common

  /** `webapp`, `api_backend`, `desktop`, `automation`, `embedded`, in `cfg` chain order. */
  const ProfileOrder: seq<string> := ["webapp", "api_backend", "desktop", "automation", "embedded"]

  /** Index in `ProfileOrder` of the first enabled profile, or `|ProfileOrder|` if none is. */
  function FirstEnabledIndex(enabled: set<string>, from: nat := 0): (k: nat)
    requires from <= |ProfileOrder|
    ensures from <= k <= |ProfileOrder|
    ensures k < |ProfileOrder| ==> ProfileOrder[k] in enabled
    ensures forall j :: from <= j < k ==> ProfileOrder[j] !in enabled
    decreases |ProfileOrder| - from
  {
    if from == |ProfileOrder| || ProfileOrder[from] in enabled then from
    else FirstEnabledIndex(enabled, from + 1)
  }

  /** The profile whose branch an `if #[cfg(..)] .. else if ..` chain takes. */
  function FirstEnabled(enabled: set<string>): (p: Option<string>)
    ensures p.None? <==> forall j :: 0 <= j < |ProfileOrder| ==> ProfileOrder[j] !in enabled
    ensures p.Some? ==> p.value in enabled
    ensures p.Some? ==> p == Some(ProfileOrder[FirstEnabledIndex(enabled)])
  {
    var k := FirstEnabledIndex(enabled);
    if k < |ProfileOrder| then Some(ProfileOrder[k]) else None
  }

  /** Enabling a later profile as well never changes which profile a chain takes. */
  lemma EarlierProfileWins(enabled: set<string>, i: nat, j: nat)
    requires i < j < |ProfileOrder|
    requires ProfileOrder[i] in enabled
    ensures FirstEnabled(enabled) != Some(ProfileOrder[j])
    ensures FirstEnabled(enabled + {ProfileOrder[j]}) == FirstEnabled(enabled)
  {
    var k := FirstEnabledIndex(enabled);
    assert k <= i;
    var k2 := FirstEnabledIndex(enabled + {ProfileOrder[j]});
    assert k2 <= i;
    assert ProfileOrder[k] in enabled + {ProfileOrder[j]};
    assert ProfileOrder[k2] != ProfileOrder[j];
  }

  /** The first enabled profile, spelled out as the `else if` chain tests it. */
  lemma FirstEnabledCases(enabled: set<string>)
    ensures "webapp" in enabled ==> FirstEnabled(enabled) == Some("webapp")
    ensures "webapp" !in enabled && "api_backend" in enabled ==> FirstEnabled(enabled) == Some("api_backend")
    ensures "webapp" !in enabled && "api_backend" !in enabled && "desktop" in enabled
      ==> FirstEnabled(enabled) == Some("desktop")
    ensures "webapp" !in enabled && "api_backend" !in enabled && "desktop" !in enabled && "automation" in enabled
      ==> FirstEnabled(enabled) == Some("automation")
    ensures ("webapp" !in enabled && "api_backend" !in enabled && "desktop" !in enabled && "automation" !in enabled
      && "embedded" in enabled) ==> FirstEnabled(enabled) == Some("embedded")
    ensures ("webapp" !in enabled && "api_backend" !in enabled && "desktop" !in enabled && "automation" !in enabled
      && "embedded" !in enabled) ==> FirstEnabled(enabled) == None
  {
    var k := FirstEnabledIndex(enabled);
    assert ProfileOrder[0] == "webapp" && ProfileOrder[1] == "api_backend" && ProfileOrder[2] == "desktop";
    assert ProfileOrder[3] == "automation" && ProfileOrder[4] == "embedded";
  }
}
