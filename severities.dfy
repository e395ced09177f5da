/** Finding-severity counts of an image scan: the default-filling step that
    guarantees all six severities are present, and the colour/icon tier the
    notification is drawn with. */
module Severities {

  datatype Option<T> = None | Some(value: T)

  /** The six severities reported in a notification, most severe first. */
  const SeverityList: seq<string> := ["CRITICAL", "HIGH", "MEDIUM", "LOW", "INFORMAL", "UNDEFINED"]

  /** Every reported severity has an entry. */
  predicate HasAllSeverities(counts: map<string, int>) {
    forall s :: s in SeverityList ==> s in counts
  }

  /** The dictionary after `setdefault(key, default)`: an existing entry wins. */
  function WithDefault(counts: map<string, int>, key: string, default: int): map<string, int> {
    if key in counts then counts else counts[key := default]
  }

  /** The dictionary after `setdefault(k, 0)` has run for every `k` of `keys`, in order. */
  function SetDefaults(counts: map<string, int>, keys: seq<string>): (r: map<string, int>)
    ensures r.Keys == counts.Keys + (set k | k in keys)
    ensures forall k :: k in counts ==> r[k] == counts[k]
    ensures forall k :: k in r && k !in counts ==> r[k] == 0
    decreases |keys|
  {
    if keys == [] then counts
    else
      var prefix := keys[..|keys| - 1];
      assert keys == prefix + [keys[|keys| - 1]];
      WithDefault(SetDefaults(counts, prefix), keys[|keys| - 1], 0)
  }

  /** After filling, every severity is present, whatever the scan reported. */
  lemma FilledHasAllSeverities(counts: map<string, int>)
    ensures HasAllSeverities(SetDefaults(counts, SeverityList))
  {
  }

  /** Filling twice is filling once: a second pass finds every key present. */
  lemma SetDefaultsIdempotent(counts: map<string, int>, keys: seq<string>)
    ensures SetDefaults(SetDefaults(counts, keys), keys) == SetDefaults(counts, keys)
  {
  }

  /** The findingSeverityCounts dictionary, which the formatter fills in place. */
  class FindingSeverityCounts {
    var counts: map<string, int>

    constructor (initial: map<string, int>)
      ensures counts == initial
    {
      counts := initial;
    }

    /** `dict.setdefault`: inserts `default` only when `key` is absent and
        returns the value now stored under `key`. */
    method SetDefault(key: string, default: int) returns (value: int)
      modifies this
      ensures counts == WithDefault(old(counts), key, default)
      ensures value == (if key in old(counts) then old(counts)[key] else default)
    {
      if key !in counts {
        counts := counts[key := default];
      }
      value := counts[key];
    }

    /** The default-filling loop of the formatter: afterwards all six
        severities are present, existing counts are kept, nothing else changes. */
    method FillSeverityDefaults()
      modifies this
      ensures counts == SetDefaults(old(counts), SeverityList)
      ensures HasAllSeverities(counts)
    {
      for i := 0 to |SeverityList|
        invariant counts == SetDefaults(old(counts), SeverityList[..i])
      {
        var severity := SeverityList[i];
        assert SeverityList[..i + 1] == SeverityList[..i] + [severity];
        var _ := SetDefault(severity, 0);
      }
      assert SeverityList[..|SeverityList|] == SeverityList;
    }
  }

  /** The colour tag and icon of a notification. */
  datatype Properties = Properties(color: string, icon: string)

  const Danger := Properties("danger", ":red_circle:")
  const Warning := Properties("warning", ":large_orange_diamond:")
  const Good := Properties("good", ":green_heart:")

  /** The strict priority cascade: CRITICAL, then HIGH, then everything else. */
  function GetProperties(counts: map<string, int>): (p: Properties)
    requires "CRITICAL" in counts && "HIGH" in counts
    ensures p == Danger || p == Warning || p == Good
  {
    if counts["CRITICAL"] != 0 then Danger
    else if counts["HIGH"] != 0 then Warning
    else Good
  }

  /** A single CRITICAL finding decides the tier, whatever the other counts are. */
  lemma CriticalOutranksAll(counts: map<string, int>)
    requires "CRITICAL" in counts && "HIGH" in counts
    requires counts["CRITICAL"] != 0
    ensures GetProperties(counts) == Danger
  {
  }

  /** With no CRITICAL finding, a HIGH finding gives the warning tier. */
  lemma HighWithoutCriticalWarns(counts: map<string, int>)
    requires "CRITICAL" in counts && "HIGH" in counts
    requires counts["CRITICAL"] == 0 && counts["HIGH"] != 0
    ensures GetProperties(counts) == Warning
  {
  }

  /** Only CRITICAL and HIGH matter: the tier is good exactly when both are zero,
      and counts of any other severity never change it. */
  lemma TierIgnoresLowerSeverities(a: map<string, int>, b: map<string, int>)
    requires "CRITICAL" in a && "HIGH" in a && "CRITICAL" in b && "HIGH" in b
    requires a["CRITICAL"] == b["CRITICAL"] && a["HIGH"] == b["HIGH"]
    ensures GetProperties(a) == GetProperties(b)
    ensures GetProperties(a) == Good <==> a["CRITICAL"] == 0 && a["HIGH"] == 0
  {
  }

  /** A severity counts as present when its entry exists and is not zero. */
  predicate Reported(counts: map<string, int>, severity: string) {
    severity in counts && counts[severity] != 0
  }

  /** The position in `keys` of the first reported severity, or `|keys|` when none is. */
  function FirstReported(counts: map<string, int>, keys: seq<string>): (i: nat)
    ensures i <= |keys|
    ensures i < |keys| ==> Reported(counts, keys[i])
    ensures forall j :: 0 <= j < i ==> !Reported(counts, keys[j])
  {
    if keys == [] then 0
    else if Reported(counts, keys[0]) then 0
    else 1 + FirstReported(counts, keys[1..])
  }

  /** The most severe severity with a finding, if any. */
  function MostSevere(counts: map<string, int>): Option<string> {
    var i := FirstReported(counts, SeverityList);
    if i < |SeverityList| then Some(SeverityList[i]) else None
  }

  /** Reference definition of the tier: red for a CRITICAL worst finding,
      orange for a HIGH one, green otherwise. */
  function TierOf(worst: Option<string>): Properties {
    match worst
    case Some("CRITICAL") => Danger
    case Some("HIGH") => Warning
    case _ => Good
  }

  /** The cascade picks the tier of the most severe reported severity: it is
      a priority rule, not a weighted score. */
  lemma CascadeIsMostSevereTier(counts: map<string, int>)
    requires "CRITICAL" in counts && "HIGH" in counts
    ensures GetProperties(counts) == TierOf(MostSevere(counts))
  {
    var i := FirstReported(counts, SeverityList);
    if counts["CRITICAL"] != 0 {
      assert i == 0;
    } else if counts["HIGH"] != 0 {
      assert !Reported(counts, SeverityList[0]) && Reported(counts, SeverityList[1]);
      assert i == 1;
    } else {
      assert i != 0 && i != 1;
    }
  }
}
