/**
 The names that downloads use: which targets are accepted, where they land, what
 their temporary files are called, and which of those a cleanup removes.
 */
module DownloadNames {
  import opened Wrappers
  import opened Utf8
  import opened Decimal

  const NAME_MAX: nat := 255
  const TEMP_SUFFIX_MAX: nat := 37  // ".part." + 10 digits + "." + 20 digits

  type u32 = n: int | 0 <= n < 0x1_0000_0000
  type u64 = n: int | 0 <= n < 0x1_0000_0000_0000_0000

  datatype NameError = BadRepo | BadFile | Escapes | BadRevision

  // ---- Accepted targets -------------------------------------------------------

  predicate IsSafeChar(c: char) {
    'a' <= c <= 'z' || 'A' <= c <= 'Z' || IsDigit(c) || c == '.' || c == '_' || c == '-'
  }

  predicate IsSafeSegment(s: string) {
    s != "" && s != "." && s != ".." && forall i :: 0 <= i < |s| ==> IsSafeChar(s[i])
  }

  function LowerChar(c: char): char {
    if 'A' <= c <= 'Z' then c - 'A' + 'a' else c
  }

  predicate EndsWithGguf(s: string) {
    |s| >= 5 && var t := s[|s| - 5..];
    t[0] == '.' && LowerChar(t[1]) == 'g' && LowerChar(t[2]) == 'g' && LowerChar(t[3]) == 'u' && LowerChar(t[4]) == 'f'
  }

  /** The parts between slashes. */
  function SplitSlash(s: string): (parts: seq<string>)
    ensures parts != []
  {
    if s == "" then [""]
    else if s[0] == '/' then [""] + SplitSlash(s[1..])
    else var rest := SplitSlash(s[1..]); [[s[0]] + rest[0]] + rest[1..]
  }

  predicate IsModelFile(file: string) {
    IsSafeSegment(file) && ByteLen(file) <= NAME_MAX - TEMP_SUFFIX_MAX && EndsWithGguf(file)
  }

  predicate IsRepoSegment(s: string) {
    IsSafeSegment(s) && ByteLen(s) <= NAME_MAX
  }

  /** The destination below the models directory. */
  function DestPath(repo: string, file: string): Result<string, NameError> {
    var segs := SplitSlash(repo);
    if |segs| != 2 || exists i :: 0 <= i < |segs| && !IsRepoSegment(segs[i]) then Err(BadRepo)
    else if !IsModelFile(file) then Err(BadFile)
    else
      var rel := repo + "/" + file;
      if rel[0] == '/' || ".." in SplitSlash(rel) then Err(Escapes) else Ok(rel)
  }

  /** The revision rides the URL, not the path, so it is checked apart and after the path. */
  function Target(repo: string, file: string, revision: string): Result<string, NameError> {
    var dest := DestPath(repo, file);
    var segs := SplitSlash(revision);
    if dest.Ok? && exists i :: 0 <= i < |segs| && !IsSafeSegment(segs[i]) then Err(BadRevision) else dest
  }

  predicate NoSlash(s: string) {
    forall i :: 0 <= i < |s| ==> s[i] != '/'
  }

  lemma {:induction false} SplitNoSlash(s: string)
    requires NoSlash(s)
    ensures SplitSlash(s) == [s]
  {
    if s != "" {
      SplitNoSlash(s[1..]);
      assert [s[0]] + s[1..] == s;
    }
  }

  lemma {:induction false} SplitFirst(head: string, tail: string)
    requires NoSlash(head)
    ensures SplitSlash(head + "/" + tail) == [head] + SplitSlash(tail)
  {
    var s := head + "/" + tail;
    if head == "" {
      assert s[1..] == tail;
    } else {
      assert s[1..] == head[1..] + "/" + tail;
      SplitFirst(head[1..], tail);
      assert [head[0]] + head[1..] == head;
    }
  }

  /** Splitting forgets nothing but the slashes. */
  lemma {:induction false} SplitPair(s: string)
    requires |SplitSlash(s)| == 2
    ensures s == SplitSlash(s)[0] + "/" + SplitSlash(s)[1]
  {
    if s[0] == '/' {
      SplitSingle(s[1..]);
      assert s == "" + "/" + s[1..];
    } else {
      SplitPair(s[1..]);
      assert s == [s[0]] + s[1..];
    }
  }

  lemma {:induction false} SplitSingle(s: string)
    requires |SplitSlash(s)| == 1
    ensures SplitSlash(s) == [s]
  {
    if s != "" {
      SplitSingle(s[1..]);
      assert s == [s[0]] + s[1..];
    }
  }

  lemma SafeHasNoSlash(s: string)
    requires IsSafeSegment(s)
    ensures NoSlash(s) && ByteLen(s) == |s|
  {
    ByteLenAscii(s);
  }

  /**
   Exactly the targets `<org>/<model>` with a `.gguf` file are accepted, each name one safe component
   of bounded length; the path has those three components and cannot leave the models directory,
   so the last check never fires.
   */
  lemma DestPathExactly(repo: string, file: string)
    ensures DestPath(repo, file) != Err(Escapes)
    ensures DestPath(repo, file).Ok? <==>
      exists org, model :: IsTarget(repo, org, model) && IsModelFile(file)
    ensures forall org, model :: IsTarget(repo, org, model) && IsModelFile(file) ==>
      DestPath(repo, file) == Ok(repo + "/" + file) && SplitSlash(repo + "/" + file) == [org, model, file]
  {
    var segs := SplitSlash(repo);
    if |segs| == 2 && IsRepoSegment(segs[0]) && IsRepoSegment(segs[1]) {
      SplitPair(repo);
      assert IsTarget(repo, segs[0], segs[1]);
    }
    if IsModelFile(file) {
      forall org, model | IsTarget(repo, org, model)
        ensures segs == [org, model] && SplitSlash(repo + "/" + file) == [org, model, file]
      {
        PathParts(repo, org, model, file);
      }
    }
  }

  function JoinSlash(parts: seq<string>): string
    requires parts != []
  {
    if |parts| == 1 then parts[0] else parts[0] + "/" + JoinSlash(parts[1..])
  }

  lemma {:induction false} JoinOfSplit(s: string)
    ensures JoinSlash(SplitSlash(s)) == s
  {
    if s != "" {
      JoinOfSplit(s[1..]);
      assert [s[0]] + s[1..] == s;
      var rest, all := SplitSlash(s[1..]), SplitSlash(s);
      if s[0] == '/' {
        assert all[1..] == rest;
      } else {
        assert all[1..] == rest[1..];
        if |rest| > 1 { assert [s[0]] + (rest[0] + "/" + JoinSlash(rest[1..])) == all[0] + "/" + JoinSlash(all[1..]); }
      }
    }
  }

  lemma {:induction false} SplitOfJoin(parts: seq<string>)
    requires parts != [] && forall part :: part in parts ==> NoSlash(part)
    ensures SplitSlash(JoinSlash(parts)) == parts
  {
    if |parts| == 1 {
      SplitNoSlash(parts[0]);
    } else {
      SplitFirst(parts[0], JoinSlash(parts[1..]));
      SplitOfJoin(parts[1..]);
    }
  }

  /** A target is accepted exactly when its path is and its revision is safe names joined by slashes; the path is refused first. */
  lemma TargetExactly(repo: string, file: string, revision: string)
    ensures Target(repo, file, revision).Ok? <==>
      && DestPath(repo, file).Ok?
      && exists parts :: parts != [] && (forall part :: part in parts ==> IsSafeSegment(part)) && revision == JoinSlash(parts)
    ensures Target(repo, file, revision) ==
      if DestPath(repo, file).Ok? && Target(repo, file, revision).Err? then Err(BadRevision) else DestPath(repo, file)
  {
    hide DestPath, IsSafeSegment;
    var segs := SplitSlash(revision);
    JoinOfSplit(revision);
    if forall i :: 0 <= i < |segs| ==> IsSafeSegment(segs[i]) {
      assert forall part :: part in segs ==> IsSafeSegment(part);
    }
    if parts :| parts != [] && (forall part :: part in parts ==> IsSafeSegment(part)) && revision == JoinSlash(parts) {
      forall part | part in parts ensures NoSlash(part) {
        SafeHasNoSlash(part);
      }
      SplitOfJoin(parts);
    }
  }

  predicate IsTarget(repo: string, org: string, model: string) {
    IsRepoSegment(org) && IsRepoSegment(model) && repo == org + "/" + model
  }

  lemma ThreeParts(org: string, model: string, file: string)
    requires NoSlash(org) && NoSlash(model) && NoSlash(file)
    ensures SplitSlash(org + "/" + model) == [org, model]
    ensures SplitSlash(org + "/" + (model + "/" + file)) == [org, model, file]
  {
    SplitFirst(org, model);
    SplitNoSlash(model);
    SplitNoSlash(file);
    SplitFirst(model, file);
    SplitFirst(org, model + "/" + file);
  }

  lemma PathParts(repo: string, org: string, model: string, file: string)
    requires IsTarget(repo, org, model) && IsSafeSegment(file)
    ensures SplitSlash(repo) == [org, model] && SplitSlash(repo + "/" + file) == [org, model, file]
  {
    SafeHasNoSlash(org);
    SafeHasNoSlash(model);
    SafeHasNoSlash(file);
    ThreeParts(org, model, file);
    assert repo + "/" + file == org + "/" + (model + "/" + file);
  }

  /** Two accepted targets share a destination only when they are the same target. */
  lemma OneDestinationOneTarget(repo: string, file: string, repo': string, file': string)
    requires DestPath(repo, file).Ok? && DestPath(repo, file) == DestPath(repo', file')
    ensures repo == repo' && file == file'
  {
    DestPathExactly(repo, file);
    DestPathExactly(repo', file');
    var o, m :| IsTarget(repo, o, m);
    var o', m' :| IsTarget(repo', o', m');
    assert [o, m, file] == [o', m', file'];
    assert o == [o, m, file][0] && m == [o, m, file][1] && file == [o, m, file][2];
  }

  // ---- Temporary files --------------------------------------------------------

  function TempPrefix(file: string, pid: nat): string {
    (file + ".part") + "." + Digits(pid) + "."
  }

  function TempName(file: string, pid: nat, n: nat): string {
    TempPrefix(file, pid) + Digits(n)
  }

  /** What the cleanup of `file` by process `pid` takes for one of its temporary files. */
  predicate Matches(name: string, file: string, pid: nat) {
    var prefix := TempPrefix(file, pid);
    prefix <= name && name[|prefix|..] != "" && AllDigits(name[|prefix|..])
  }

  /** The digits after the last dot of a text are unambiguous. */
  lemma LastDot(a: string, x: string, b: string, y: string)
    requires AllDigits(x) && AllDigits(y)
    requires a + "." + x == b + "." + y
    ensures a == b && x == y
  {
    var s := a + "." + x;
    var t := b + "." + y;
    // The dot after `a` and the dot after `b` are both the last dot of the text.
    assert s[|a|] == '.' && s[|b|] == t[|b|] == '.';
    assert forall i :: |a| < i < |s| ==> s[i] == x[i - |a| - 1] && s[i] != '.';
    assert forall i :: |b| < i < |t| ==> t[i] == y[i - |b| - 1] && t[i] != '.';
    assert s[..|a|] == a && t[..|b|] == b;
    assert s[|a| + 1..] == x && t[|b| + 1..] == y;
  }

  lemma DigitsInjective(a: nat, b: nat)
    requires Digits(a) == Digits(b)
    ensures a == b
  {
    ValueOfDigits(a);
    ValueOfDigits(b);
  }

  lemma PrefixAndDigits(file: string, pid: nat, x: string, file': string, pid': nat, y: string)
    requires AllDigits(x) && AllDigits(y)
    requires TempPrefix(file, pid) + x == TempPrefix(file', pid') + y
    ensures file == file' && pid == pid' && x == y
  {
    var a, b := file + ".part", file' + ".part";
    assert TempPrefix(file, pid) + x == (a + "." + Digits(pid)) + "." + x;
    assert TempPrefix(file', pid') + y == (b + "." + Digits(pid')) + "." + y;
    LastDot(a + "." + Digits(pid), x, b + "." + Digits(pid'), y);
    LastDot(a, Digits(pid), b, Digits(pid'));
    DigitsInjective(pid, pid');
    assert a[..|file|] == file && b[..|file'|] == file';
  }

  /** A temporary name tells its file, its process and its number, whatever the file is called. */
  lemma TempNamesAreInjective(file: string, pid: nat, n: nat, file': string, pid': nat, n': nat)
    requires TempName(file, pid, n) == TempName(file', pid', n')
    ensures file == file' && pid == pid' && n == n'
  {
    PrefixAndDigits(file, pid, Digits(n), file', pid', Digits(n'));
    DigitsInjective(n, n');
  }

  /**
   A cleanup matches a temporary file exactly when it is one of its own file and process, and it
   never matches a name that a model can have.
   */
  lemma MatchesOwnTempsOnly(file: string, pid: nat, file': string, pid': nat, n: nat, repo: string, name: string)
    ensures Matches(TempName(file', pid', n), file, pid) <==> file' == file && pid' == pid
    ensures Matches(name, file, pid) ==> DestPath(repo, name).Err?
  {
    var t := TempName(file', pid', n);
    var prefix := TempPrefix(file, pid);
    if Matches(t, file, pid) {
      assert t == prefix + t[|prefix|..];
      PrefixAndDigits(file', pid', Digits(n), file, pid, t[|prefix|..]);
    }
    if file' == file && pid' == pid {
      assert t[|prefix|..] == Digits(n);
    }
    if Matches(name, file, pid) {
      assert IsDigit(name[|name| - 1]) by {
        var digits := name[|prefix|..];
        assert IsDigit(digits[|digits| - 1]);
      }
    }
  }

  /**
   A matching name is one that some attempt can have unless its number has a leading zero or is more than
   the counter holds.
   */
  lemma MatchedNames(name: string, file: string, pid: nat)
    requires Matches(name, file, pid)
    ensures var digits := name[|TempPrefix(file, pid)|..];
      (exists n: u64 :: name == TempName(file, pid, n)) <==>
        (digits[0] == '0' ==> |digits| == 1) && Value(digits) < 0x1_0000_0000_0000_0000
  {
    var prefix := TempPrefix(file, pid);
    var digits := name[|prefix|..];
    assert name == prefix + digits;
    DigitsOfValue(digits);
    if Digits(Value(digits)) == digits && Value(digits) < 0x1_0000_0000_0000_0000 {
      var n: u64 := Value(digits);
      assert name == TempName(file, pid, n);
    }
    if n: u64 :| name == TempName(file, pid, n) {
      assert name[|prefix|..] == Digits(n);
      ValueOfDigits(n);
    }
  }

  lemma {:induction false} DigitsAtLeast(n: nat, k: nat)
    requires n >= Pow10(k)
    ensures |Digits(n)| > k
  {
    if k > 0 {
      PowPositive(k - 1);
      DigitsAtLeast(n / 10, k - 1);
    }
  }

  lemma PowPositive(k: nat)
    ensures Pow10(k) >= 1
  {
  }

  lemma Widths()
    ensures Pow10(9) < 0x1_0000_0000 < Pow10(10)
    ensures Pow10(19) < 0x1_0000_0000_0000_0000 < Pow10(20)
  {
    assert Pow10(3) == 1000;
    assert Pow10(6) == 1_000_000;
    assert Pow10(9) == 1_000_000_000;
    assert Pow10(12) == 1_000_000_000_000;
    assert Pow10(15) == 1_000_000_000_000_000;
    assert Pow10(18) == 1_000_000_000_000_000_000;
  }

  lemma TempLength(file: string, pid: nat, n: nat)
    ensures |TempName(file, pid, n)| == |file| + 7 + |Digits(pid)| + |Digits(n)|
  {
  }

  lemma TempBytes(file: string, pid: u32, n: u64)
    requires IsSafeSegment(file)
    ensures ByteLen(TempName(file, pid, n)) == |file| + 7 + |Digits(pid)| + |Digits(n)|
    ensures |Digits(pid)| <= 10 && |Digits(n)| <= 20 && ByteLen(file) == |file|
  {
    hide ByteLen;
    SafeHasNoSlash(file);
    Widths();
    ByteLenAscii(TempName(file, pid, n));
    TempLength(file, pid, n);
    DigitsLength(pid, 10);
    DigitsLength(n, 20);
  }

  /** The longest temporary name there is. */
  lemma LongestTemp(file: string) returns (pid: u32, n: u64)
    requires IsSafeSegment(file)
    ensures ByteLen(TempName(file, pid, n)) == |file| + 37
  {
    hide TempName, ByteLen;
    Widths();
    pid, n := Pow10(9), Pow10(19);
    DigitsAtLeast(pid, 9);
    DigitsAtLeast(n, 19);
    TempBytes(file, pid, n);
  }

  /**
   The bound on file names is the right one: a safe name leaves room for every temporary name
   of every process exactly when it has at most 218 bytes.
   */
  lemma TempNamesFit(file: string)
    requires IsSafeSegment(file)
    ensures ByteLen(file) <= NAME_MAX - TEMP_SUFFIX_MAX <==>
      forall pid: u32, n: u64 :: ByteLen(TempName(file, pid, n)) <= NAME_MAX
  {
    hide TempName, ByteLen, IsSafeSegment;
    forall pid: u32, n: u64 ensures ByteLen(TempName(file, pid, n)) <= ByteLen(file) + 37 {
      TempBytes(file, pid, n);
    }
    var pid, n := LongestTemp(file);
    TempBytes(file, pid, n);
  }

  // ---- The cleanup ------------------------------------------------------------

  /** One directory entry: a name, a name that is not text, or a failure of the iteration. */
  datatype Entry = Named(name: string) | Foreign | Broken

  datatype Listing = Missing | Unreadable | Entries(entries: seq<Entry>)

  datatype SweepError = Refused(error: NameError) | CannotRead | ScanBroke | CannotRemove(name: string)

  /** The names among `entries` that the cleanup removes. */
  function Swept(entries: seq<Entry>, file: string, pid: nat): set<string> {
    set i | 0 <= i < |entries| && entries[i].Named? && Matches(entries[i].name, file, pid) :: entries[i].name
  }

  /**
   The cleanup gets past entry `i`: the iteration delivers it, and a name it has to remove is there and can be removed,
   and has not been removed for an earlier entry.
   */
  predicate Passable(entries: seq<Entry>, i: nat, file: string, pid: nat, files: set<string>, stuck: set<string>)
    requires i < |entries|
  {
    && entries[i] != Broken
    && (entries[i].Named? && Matches(entries[i].name, file, pid) ==>
          entries[i].name in files && entries[i].name !in stuck && entries[i] !in entries[..i])
  }

  /** Entry `i` is the first one the cleanup does not get past: what is left then, and the error it gives. */
  predicate StopsAt(entries: seq<Entry>, i: nat, file: string, pid: nat, files: set<string>, stuck: set<string>,
                    left: set<string>, error: SweepError)
    requires i < |entries|
  {
    && !Passable(entries, i, file, pid, files, stuck)
    && (forall k :: 0 <= k < i ==> Passable(entries, k, file, pid, files, stuck))
    && left == files - Swept(entries[..i], file, pid)
    && match entries[i] case Named(name) => error == CannotRemove(name) case _ => error == ScanBroke
  }

  lemma PresentStill(entries: seq<Entry>, i: nat, file: string, pid: nat, files: set<string>, stuck: set<string>)
    requires i < |entries|
    ensures Passable(entries, i, file, pid, files, stuck) <==>
      && entries[i] != Broken
      && (entries[i].Named? && Matches(entries[i].name, file, pid) ==>
            entries[i].name in files - Swept(entries[..i], file, pid) && entries[i].name !in stuck)
  {
    if entries[i].Named? && Matches(entries[i].name, file, pid) {
      if entries[i] in entries[..i] {
        var k :| 0 <= k < i && entries[..i][k] == entries[i];
        assert entries[..i][k].name in Swept(entries[..i], file, pid);
      }
    }
  }

  class ModelDir {
    var files: set<string>

    constructor (present: set<string>)
      ensures files == present
    {
      files := present;
    }

    /** `stuck` are the names that the operating system will not remove. */
    method RemovePartials(repo: string, file: string, pid: nat, listing: Listing, stuck: set<string>)
      returns (r: Result<(), SweepError>)
      modifies this
      ensures files <= old(files)
      ensures forall name :: name in old(files) && !Matches(name, file, pid) ==> name in files
      ensures r.Ok? && listing.Entries? ==>
        && files == old(files) - Swept(listing.entries, file, pid)
        && Broken !in listing.entries
      ensures DestPath(repo, file).Err? ==> r == Err(Refused(DestPath(repo, file).error)) && files == old(files)
      ensures DestPath(repo, file).Ok? && listing.Missing? ==> r == Ok(()) && files == old(files)
      ensures DestPath(repo, file).Ok? && listing.Unreadable? ==> r == Err(CannotRead) && files == old(files)
      ensures DestPath(repo, file).Ok? && listing.Entries? ==>
        (r.Ok? <==> forall i :: 0 <= i < |listing.entries| ==> Passable(listing.entries, i, file, pid, old(files), stuck))
      ensures DestPath(repo, file).Ok? && listing.Entries? && r.Err? ==>
        exists i :: 0 <= i < |listing.entries| &&
          StopsAt(listing.entries, i, file, pid, old(files), stuck, files, r.error)
    {
      var dest := DestPath(repo, file);
      if dest.Err? {
        return Err(Refused(dest.error));
      }
      match listing {
        case Missing => return Ok(());
        case Unreadable => return Err(CannotRead);
        case Entries(entries) =>
          for i := 0 to |entries|
            invariant files == old(files) - Swept(entries[..i], file, pid)
            invariant Broken !in entries[..i]
            invariant forall k :: 0 <= k < i ==> Passable(entries, k, file, pid, old(files), stuck)
          {
            PresentStill(entries, i, file, pid, old(files), stuck);
            SweptSnoc(entries[..i], entries[i], file, pid);
            assert entries[..i + 1] == entries[..i] + [entries[i]];
            match entries[i] {
              case Broken =>
                assert StopsAt(entries, i, file, pid, old(files), stuck, files, ScanBroke);
                return Err(ScanBroke);
              case Foreign =>
              case Named(name) =>
                if Matches(name, file, pid) {
                  if name in stuck || name !in files {
                    assert StopsAt(entries, i, file, pid, old(files), stuck, files, CannotRemove(name));
                    return Err(CannotRemove(name));
                  }
                  files := files - {name};
                }
            }
          }
          assert entries[..|entries|] == entries;
          return Ok(());
      }
    }
  }

  lemma SweptSnoc(entries: seq<Entry>, e: Entry, file: string, pid: nat)
    ensures Swept(entries + [e], file, pid) ==
      Swept(entries, file, pid) + (if e.Named? && Matches(e.name, file, pid) then {e.name} else {})
  {
    var all := entries + [e];
    assert all[|entries|] == e;
    forall name | name in Swept(entries, file, pid) ensures name in Swept(all, file, pid) {
      var i :| 0 <= i < |entries| && entries[i].Named? && Matches(entries[i].name, file, pid) && entries[i].name == name;
      assert all[i] == entries[i];
    }
  }
}
