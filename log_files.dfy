/**
 * Names of debug log files, log-<LEVEL>-<date>-<version>.log, and the loop
 * that picks the first version whose name is not taken.
 */
module LogFiles {
  import opened DebugLevels
  import opened Files

  /** The decimal digit for d. */
  function Digit(d: nat): char
    requires d < 10
  {
    ('0' as int + d) as char
  }

  /** The decimal notation of n, as Java writes an int into a string. */
  function NatToString(n: nat): (s: string)
    ensures |s| >= 1
    ensures forall i :: 0 <= i < |s| ==> '0' <= s[i] <= '9'
    ensures |s| == 1 <==> n < 10
  {
    if n < 10 then [Digit(n)] else NatToString(n / 10) + [Digit(n % 10)]
  }

  /** Different numbers are written differently. */
  lemma {:induction false} NatToStringInjective(a: nat, b: nat)
    requires NatToString(a) == NatToString(b)
    ensures a == b
  {
    if a >= 10 {
      var s, t := NatToString(a / 10), NatToString(b / 10);
      assert NatToString(a) == s + [Digit(a % 10)];
      assert NatToString(b) == t + [Digit(b % 10)];
      assert s == NatToString(a)[..|s|] == t;
      NatToStringInjective(a / 10, b / 10);
      assert Digit(a % 10) == NatToString(a)[|s|] == Digit(b % 10);
    }
  }

  /** The number a string of decimal digits denotes. */
  function DigitsValue(s: string): nat
    requires forall i :: 0 <= i < |s| ==> '0' <= s[i] <= '9'
  {
    if s == [] then 0 else 10 * DigitsValue(s[..|s| - 1]) + (s[|s| - 1] as int - '0' as int)
  }

  /** Reading the digits back gives the number written. */
  lemma {:induction false} NatToStringValue(n: nat)
    ensures DigitsValue(NatToString(n)) == n
  {
    if n >= 10 {
      var s := NatToString(n);
      assert s[..|s| - 1] == NatToString(n / 10);
      NatToStringValue(n / 10);
    }
  }

  function Pow10(m: nat): (p: nat)
    ensures p >= 1
  {
    if m == 0 then 1 else 10 * Pow10(m - 1)
  }

  /** A number of at least 10^m needs more than m digits. */
  lemma {:induction false} NatToStringLength(n: nat, m: nat)
    requires n >= Pow10(m)
    ensures |NatToString(n)| > m
  {
    if m > 0 {
      assert n / 10 >= Pow10(m - 1);
      NatToStringLength(n / 10, m - 1);
    }
  }

  /** The name of the version-th debug file of a day, for a configured level. */
  function LogFileName(level: DebugLevel, date: string, version: nat): (name: string)
    ensures |name| > 8 && name[..4] == "log-" && name[|name| - 4..] == ".log"
  {
    "log-" + Name(level) + "-" + date + "-" + NatToString(version) + ".log"
  }

  /** The digits between the level-and-date prefix and ".log" read back as
      the version. */
  lemma LogFileNameVersion(level: DebugLevel, date: string, version: nat)
    ensures var prefix := "log-" + Name(level) + "-" + date + "-";
            var name := LogFileName(level, date, version);
            && |prefix| < |name| - 4
            && (forall i :: |prefix| <= i < |name| - 4 ==> '0' <= name[i] <= '9')
            && DigitsValue(name[|prefix|..|name| - 4]) == version
  {
    var prefix := "log-" + Name(level) + "-" + date + "-";
    var name := LogFileName(level, date, version);
    assert name == prefix + NatToString(version) + ".log";
    assert name[|prefix|..|name| - 4] == NatToString(version);
    NatToStringValue(version);
  }

  /** Distinct versions give distinct names. */
  lemma LogFileNameInjective(level: DebugLevel, date: string, v1: nat, v2: nat)
    requires LogFileName(level, date, v1) == LogFileName(level, date, v2)
    ensures v1 == v2
  {
    var prefix := "log-" + Name(level) + "-" + date + "-";
    var n1, n2 := LogFileName(level, date, v1), LogFileName(level, date, v2);
    assert n1 == prefix + NatToString(v1) + ".log";
    assert n2 == prefix + NatToString(v2) + ".log";
    assert NatToString(v1) == n1[|prefix|..|n1| - 4];
    assert NatToString(v2) == n2[|prefix|..|n2| - 4];
    NatToStringInjective(v1, v2);
  }

  /** An upper bound on the length of the paths in a (finite) set. */
  ghost function MaxLength(paths: set<string>): (m: nat)
    ensures forall p :: p in paths ==> |p| <= m
  {
    if paths == {} then 0
    else
      var p :| p in paths;
      var rest := MaxLength(paths - {p});
      if |p| > rest then |p| else rest
  }

  /** Some version's name is too long to be in the set, so the search ends. */
  lemma FreeVersionBound(existing: set<string>, level: DebugLevel, date: string) returns (bound: nat)
    ensures bound >= 1 && LogFileName(level, date, bound) !in existing
  {
    var m := MaxLength(existing);
    bound := Pow10(m);
    NatToStringLength(bound, m);
  }

  /** version is the smallest positive version whose bare name is not in existing. */
  ghost predicate IsFirstFreeVersion(existing: set<string>, level: DebugLevel, date: string, version: nat)
  {
    && version >= 1
    && LogFileName(level, date, version) !in existing
    && forall k :: 1 <= k < version ==> LogFileName(level, date, k) in existing
  }

  /** The do-while loop of debug(keepLog, ...): existing holds the paths that
      exist, relative to the working directory, and the candidate checked is
      the bare file name. */
  method SelectVersion(existing: set<string>, level: DebugLevel, date: string)
    returns (fileName: string, version: nat)
    ensures IsFirstFreeVersion(existing, level, date, version)
    ensures fileName == LogFileName(level, date, version)
  {
    ghost var bound := FreeVersionBound(existing, level, date);
    var versionNumber: nat := 1;
    fileName := LogFileName(level, date, versionNumber);
    versionNumber := versionNumber + 1;
    while fileName in existing
      invariant 2 <= versionNumber <= bound + 1
      invariant fileName == LogFileName(level, date, versionNumber - 1)
      invariant forall k :: 1 <= k < versionNumber - 1 ==> LogFileName(level, date, k) in existing
      decreases bound + 1 - versionNumber
    {
      fileName := LogFileName(level, date, versionNumber);
      versionNumber := versionNumber + 1;
    }
    version := versionNumber - 1;
  }

  /** With versions 1 and 2 of the day taken, version 3 is chosen, for any
      level and date. */
  lemma ThirdVersionAfterTwo(level: DebugLevel, date: string)
    ensures IsFirstFreeVersion({LogFileName(level, date, 1), LogFileName(level, date, 2)}, level, date, 3)
  {
    if LogFileName(level, date, 3) == LogFileName(level, date, 1) {
      LogFileNameInjective(level, date, 3, 1);
    }
    if LogFileName(level, date, 3) == LogFileName(level, date, 2) {
      LogFileNameInjective(level, date, 3, 2);
    }
  }

  /** The name of the third DEVELOPER_LOG file of 2024-01-01. */
  lemma ThirdVersionName()
    ensures LogFileName(DeveloperLog, "2024-01-01", 3) == "log-DEVELOPER_LOG-2024-01-01-3.log"
  {
  }

  /** The existence check looks at bare names, while the file is written under
      <dataFolder>/logs: an existing logs/ file of version 1 is not seen, so
      version 1 is chosen again and its file is the one already there. */
  lemma ExistenceCheckMissesLogsDirectory(dataFolder: string, level: DebugLevel, date: string)
    ensures var logs := File(dataFolder, "logs").Path();
            var target := File(logs, LogFileName(level, date, 1)).Path();
            IsFirstFreeVersion({logs, target}, level, date, 1)
  {
  }
}
