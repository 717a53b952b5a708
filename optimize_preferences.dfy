/**
 * The optimize command's built-in preference table
 * (cmd/optimize/preferences/const.go): the EC2 instance and EBS volume
 * preferences with their suggested values, pins and defaults. Its `Export`
 * is the same loop as the registry's and is modelled by
 * `PreferencesRegistry.Export`.
 */
module OptimizePreferences {
  import opened Wrappers
  import opened Proto
  import opened PreferencesRegistry

  /** A preference with every optional field at its zero value. */
  function Pref(service: string, key: string): PreferenceItem {
    PreferenceItem(service, key, "", false, None, [], false, false, "")
  }

  const Ec2: string := "EC2Instance"
  const Ebs: string := "EBSVolume"

  /**
   * `DefaultPreferences` (lines 17-44), in four parts of six. Each entry is
   * read from its part only when it is asked for.
   */
  function DefaultPreferences(): (r: seq<PreferenceItem>)
    ensures |r| == 24
  {
    seq(24, i requires 0 <= i < 24 => DefaultAt(i))
  }

  /** The entry at position `i` of the table. */
  function DefaultAt(i: int): PreferenceItem
    requires 0 <= i < 24
  {
    if i < 6 then Defaults0()[i]
    else if i < 12 then Defaults1()[i - 6]
    else if i < 18 then Defaults2()[i - 12]
    else Defaults3()[i - 18]
  }

  function Defaults0(): (r: seq<PreferenceItem>)
    ensures |r| == 6
  {
    [
      Pref(Ec2, "Tenancy").(possibleValues := ["", "Host", "Shared", "Dedicated"]),
      Pref(Ec2, "EBSOptimized").(possibleValues := ["", "Yes", "No"]),
      Pref(Ec2, "LicenseModel").(possibleValues := ["", "Bring your own license", "No License required"]),
      Pref(Ec2, "Region").(pinned := true),
      Pref(Ec2, "CurrentGeneration").(possibleValues := ["", "Yes", "No"]),
      Pref(Ec2, "PhysicalProcessor")
    ]
  }

  function Defaults1(): (r: seq<PreferenceItem>)
    ensures |r| == 6
  {
    [
      Pref(Ec2, "ClockSpeed"),
      Pref(Ec2, "OperatingSystem").(pinned := true, possibleValues := ["", "Windows", "Linux/UNIX"]),
      Pref(Ec2, "ProcessorArchitecture").(pinned := true, possibleValues := ["", "x86_64", "arm64", "arm64_mac"]),
      Pref(Ec2, "ENASupported"),
      Pref(Ec2, "SupportedRootDeviceTypes").(value := Some("EBSOnly"), preventPinning := true, possibleValues := ["EBSOnly"]),
      Pref(Ec2, "vCPU").(isNumber := true)
    ]
  }

  function Defaults2(): (r: seq<PreferenceItem>)
    ensures |r| == 6
  {
    [
      Pref(Ec2, "MemoryGB").(alias := "Memory", isNumber := true, pinned := true, unit := "GiB"),
      Pref(Ec2, "CPUBreathingRoom").(isNumber := true, value := Some("10"), preventPinning := true, unit := "%"),
      Pref(Ec2, "MemoryBreathingRoom").(isNumber := true, value := Some("10"), preventPinning := true, unit := "%"),
      Pref(Ec2, "NetworkBreathingRoom").(isNumber := true, value := Some("10"), preventPinning := true, unit := "%"),
      Pref(Ec2, "ObservabilityTimePeriod").(value := Some("7"), preventPinning := true, unit := "days", possibleValues := ["7"]),
      Pref(Ebs, "IOPS").(isNumber := true)
    ]
  }

  function Defaults3(): (r: seq<PreferenceItem>)
    ensures |r| == 6
  {
    [
      Pref(Ebs, "Throughput").(isNumber := true, unit := "Mbps"),
      Pref(Ebs, "Size").(isNumber := true, pinned := true, unit := "GB"),
      Pref(Ebs, "VolumeFamily").(possibleValues := ["", "General Purpose", "Solid State Drive", "IO Optimized", "Hard Disk Drive"]),
      Pref(Ebs, "VolumeType").(possibleValues := ["", "standard", "io1", "io2", "gp2", "gp3", "sc1", "st1"]),
      Pref(Ebs, "IOPSBreathingRoom").(isNumber := true, value := Some("10"), preventPinning := true, unit := "%"),
      Pref(Ebs, "ThroughputBreathingRoom").(isNumber := true, value := Some("10"), preventPinning := true, unit := "%")
    ]
  }

  /** The first seventeen defaults are EC2 instance preferences, the other seven EBS volume ones. */
  lemma DefaultServices()
    ensures forall i :: 0 <= i < 17 ==> DefaultPreferences()[i].service == Ec2
    ensures forall i :: 17 <= i < 24 ==> DefaultPreferences()[i].service == Ebs
  {
  }

  /**
   * The position in the default table of a key with this length and these
   * first two characters, or -1: a default key is told apart from the
   * others by its length, then its first one or two characters.
   */
  function Rank(key: string): int {
    if |key| < 2 then -1
    else
      var n, a, b := |key|, key[0], key[1];
      if n == 4 then (if a == 'v' then 11 else if a == 'I' then 17 else if a == 'S' then 19 else -1)
      else if n == 6 then (if a == 'R' then 3 else -1)
      else if n == 7 then (if a == 'T' then 0 else -1)
      else if n == 8 then (if a == 'M' then 12 else -1)
      else if n == 10 then (if a == 'C' then 6 else if a == 'T' then 18 else if a == 'V' then 21 else -1)
      else if n == 12 then (if a == 'E' && b == 'B' then 1 else if a == 'L' then 2
                            else if a == 'E' && b == 'N' then 9 else if a == 'V' then 20 else -1)
      else if n == 15 then (if a == 'O' then 7 else -1)
      else if n == 16 then (if a == 'C' then 13 else -1)
      else if n == 17 then (if a == 'C' then 4 else if a == 'P' then 5 else if a == 'I' then 22 else -1)
      else if n == 19 then (if a == 'M' then 14 else -1)
      else if n == 20 then (if a == 'N' then 15 else -1)
      else if n == 21 then (if a == 'P' then 8 else -1)
      else if n == 23 then (if a == 'O' then 16 else if a == 'T' then 23 else -1)
      else if n == 24 then (if a == 'S' then 10 else -1)
      else -1
  }

  /** Each default key ranks at its own position, part by part. */
  lemma DefaultRanks0()
    ensures forall i :: 0 <= i < 6 ==> Rank(DefaultPreferences()[i].key) == i
  {
    var d := Defaults0();
    forall j | 0 <= j < 6 ensures Rank(d[j].key) == j + 0 {
      if j == 0 {
      } else if j == 1 {
      } else if j == 2 {
      } else if j == 3 {
      } else if j == 4 {
      }
    }
    assert forall i :: 0 <= i < 6 ==> DefaultPreferences()[i] == d[i - 0];
  }

  lemma DefaultRanks1()
    ensures forall i :: 6 <= i < 12 ==> Rank(DefaultPreferences()[i].key) == i
  {
    var d := Defaults1();
    forall j | 0 <= j < 6 ensures Rank(d[j].key) == j + 6 {
      if j == 0 {
      } else if j == 1 {
      } else if j == 2 {
      } else if j == 3 {
      } else if j == 4 {
      }
    }
    assert forall i :: 6 <= i < 12 ==> DefaultPreferences()[i] == d[i - 6];
  }

  lemma DefaultRanks2()
    ensures forall i :: 12 <= i < 18 ==> Rank(DefaultPreferences()[i].key) == i
  {
    var d := Defaults2();
    forall j | 0 <= j < 6 ensures Rank(d[j].key) == j + 12 {
      if j == 0 {
      } else if j == 1 {
      } else if j == 2 {
      } else if j == 3 {
      } else if j == 4 {
      }
    }
    assert forall i :: 12 <= i < 18 ==> DefaultPreferences()[i] == d[i - 12];
  }

  lemma DefaultRanks3()
    ensures forall i :: 18 <= i < 24 ==> Rank(DefaultPreferences()[i].key) == i
  {
    var d := Defaults3();
    forall j | 0 <= j < 6 ensures Rank(d[j].key) == j + 18 {
      if j == 0 {
      } else if j == 1 {
      } else if j == 2 {
      } else if j == 3 {
      } else if j == 4 {
      }
    }
    assert forall i :: 18 <= i < 24 ==> DefaultPreferences()[i] == d[i - 18];
  }

  /** No two defaults share a key, so a lookup by key alone is unambiguous. */
  lemma DefaultKeysDistinct()
    ensures forall i, j :: 0 <= i < j < |DefaultPreferences()| ==> DefaultPreferences()[i].key != DefaultPreferences()[j].key
  {
    DefaultRanks0();
    DefaultRanks1();
    DefaultRanks2();
    DefaultRanks3();
  }

  /** Exactly Region, OperatingSystem, ProcessorArchitecture, MemoryGB and Size are pinned by default. */
  lemma DefaultPins()
    ensures forall i :: 0 <= i < |DefaultPreferences()| ==>
              (DefaultPreferences()[i].pinned <==> i in {3, 7, 8, 12, 19})
    ensures [DefaultPreferences()[3].key, DefaultPreferences()[7].key, DefaultPreferences()[8].key,
             DefaultPreferences()[12].key, DefaultPreferences()[19].key] ==
            ["Region", "OperatingSystem", "ProcessorArchitecture", "MemoryGB", "Size"]
  {
  }

  /** A default that cannot be pinned always carries a value, and is not pinned. */
  lemma DefaultUnpinnableHaveValues()
    ensures forall i :: 0 <= i < |DefaultPreferences()| && DefaultPreferences()[i].preventPinning ==>
              DefaultPreferences()[i].value.Some? && !DefaultPreferences()[i].pinned
  {
  }

  /**
   * Exporting the defaults: a default's key appears iff it is pinned or has
   * a value, mapped to unset when pinned and to the value otherwise, and
   * no other key appears.
   */
  lemma DefaultExport()
    ensures forall i :: 0 <= i < |DefaultPreferences()| ==>
              var p := DefaultPreferences()[i];
              (p.key in Exported(DefaultPreferences()) <==> p.pinned || p.value.Some?) &&
              (p.key in Exported(DefaultPreferences()) ==> Exported(DefaultPreferences())[p.key] == ExportValue(p))
    ensures forall k :: k in Exported(DefaultPreferences()) ==>
              exists i | 0 <= i < |DefaultPreferences()| :: DefaultPreferences()[i].key == k
  {
    var d := DefaultPreferences();
    DefaultKeysDistinct();
    forall i | 0 <= i < |d|
      ensures (d[i].key in Exported(d) <==> d[i].pinned || d[i].value.Some?)
      ensures d[i].key in Exported(d) ==> Exported(d)[d[i].key] == ExportValue(d[i])
    {
      ExportedKeys(d, d[i].key);
      if d[i].pinned || d[i].value.Some? {
        ExportedLast(d, i);
      }
    }
    forall k | k in Exported(d) ensures exists i | 0 <= i < |d| :: d[i].key == k {
      ExportedKeys(d, k);
    }
  }
}
