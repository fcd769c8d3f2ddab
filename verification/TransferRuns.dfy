/**
 Any number of transfers into one model directory, of any files and by any processes,
 interleaved at every system call, with failures, dropped futures, sweeps and killed
 processes. Names lead to inodes, so a write goes to the file that was opened, wherever
 that file is called by now.
 */
module TransferRuns {
  import opened Decimal
  import opened DownloadNames
  import opened DownloadProtocol
  import opened Runs
  import opened Wrappers

  /** One attempt: its file, its process, and the number that process gave it. */
  datatype Key = Key(file: string, pid: nat, n: nat)

  datatype Inode = Original(name: string) | Of(key: Key)

  datatype Outcome = Done | LocalFailed | FetcherFailed | Cancelled

  datatype Pc =
    | Fetching
    | Syncing
    | Renaming
    | Unlinking(outcome: Outcome)
    | Guarding(outcome: Outcome)                  // the guard's drop is what remains
    | Ended(outcome: Outcome, cleaned: bool)      // whether that drop could unlink
    | Killed

  /** `delivered` is what the byte source handed over, `written` what the opened file holds. */
  datatype Attempt = Attempt(pc: Pc, delivered: Bytes, written: Bytes, writeErr: bool, fetched: bool)

  datatype World = World(
    dir: map<string, Inode>, attempts: map<Key, Attempt>, counters: map<nat, nat>, dead: set<nat>)

  datatype Label =
    | Begin(file: string, pid: nat, created: bool)
    | Deliver(key: Key, bytes: Bytes, taken: nat)
    | FetchEnds(key: Key, ok: bool)
    | SyncEnds(key: Key, ok: bool)
    | Rename(key: Key, ok: bool)
    | Unlink(key: Key, ok: bool)
    | GuardDrop(key: Key, ok: bool)
    | Cancel(key: Key)
    | Sweep(key: Key, name: string)
    | Kill(pid: nat)

  /** What the runs need to know of names; `THEIRS` are the ones that downloads use. */
  datatype Names = Names(temp: Key -> string, model: string -> bool, swept: (string, Key) -> bool)

  ghost predicate Apart(ns: Names) {
    && (forall k, j :: ns.temp(k) == ns.temp(j) ==> k == j)
    && (forall k :: !ns.model(ns.temp(k)))
    && (forall name, k :: ns.swept(name, k) ==> !ns.model(name))
  }

  function TempOf(k: Key): string {
    TempName(k.file, k.pid, k.n)
  }

  /** A sweep is of a file and a process; the number in `k` plays no part. */
  predicate SweptBy(name: string, k: Key) {
    Matches(name, k.file, k.pid)
  }

  const THEIRS: Names := Names(TempOf, IsModelFile, SweptBy)

  function Initial(present: map<string, Bytes>): World {
    World(map name | name in present :: Original(name), map[], map[], {})
  }

  predicate At(w: World, k: Key, pc: Pc) {
    k in w.attempts && w.attempts[k].pc == pc
  }

  function SetPc(w: World, k: Key, pc: Pc): World
    requires k in w.attempts
  {
    w.(attempts := w.attempts[k := w.attempts[k].(pc := pc)])
  }

  function Start(ns: Names, w: World, file: string, pid: nat, created: bool): World {
    var n := if pid in w.counters then w.counters[pid] else 0;
    var k := Key(file, pid, n);
    World(
      if created then w.dir[ns.temp(k) := Of(k)] else w.dir,
      w.attempts[k := Attempt(if created then Fetching else Guarding(LocalFailed), [], [], false, false)],
      w.counters[pid := n + 1],
      w.dead)
  }

  function Fed(a: Attempt, bytes: Bytes, taken: nat): Attempt {
    var b := a.(delivered := a.delivered + bytes);
    if a.writeErr then b
    else if taken >= |bytes| then b.(written := a.written + bytes)
    else b.(written := a.written + bytes[..taken], writeErr := true)
  }

  function AfterFetch(a: Attempt, ok: bool): Attempt {
    if !ok then a.(pc := Unlinking(FetcherFailed))
    else if a.writeErr then a.(pc := Unlinking(LocalFailed), fetched := true)
    else a.(pc := Syncing, fetched := true)
  }

  function Renamed(ns: Names, w: World, k: Key): World
    requires k in w.attempts && ns.temp(k) in w.dir
  {
    SetPc(w, k, Ended(Done, true)).(dir := (w.dir - {ns.temp(k)})[k.file := w.dir[ns.temp(k)]])
  }

  function Removed(w: World, name: string, ok: bool): World {
    if ok then w.(dir := w.dir - {name}) else w
  }

  function KillAll(w: World, pid: nat): World {
    w.(attempts := map k | k in w.attempts ::
         if k.pid == pid && !w.attempts[k].pc.Ended? then w.attempts[k].(pc := Killed) else w.attempts[k],
       dead := w.dead + {pid})
  }

  /** A step that cannot be taken changes nothing. */
  function Next(ns: Names, w: World, l: Label): World {
    match l
    case Begin(file, pid, created) =>
      if ns.model(file) && pid !in w.dead then Start(ns, w, file, pid, created) else w
    case Deliver(k, bytes, taken) =>
      if At(w, k, Fetching) then w.(attempts := w.attempts[k := Fed(w.attempts[k], bytes, taken)]) else w
    case FetchEnds(k, ok) =>
      if At(w, k, Fetching) then w.(attempts := w.attempts[k := AfterFetch(w.attempts[k], ok)]) else w
    case SyncEnds(k, ok) =>
      if At(w, k, Syncing) then SetPc(w, k, if ok then Renaming else Unlinking(LocalFailed)) else w
    case Rename(k, ok) =>
      if At(w, k, Renaming) then
        if ok && ns.temp(k) in w.dir then Renamed(ns, w, k) else SetPc(w, k, Unlinking(LocalFailed))
      else w
    case Unlink(k, ok) =>
      if k in w.attempts && w.attempts[k].pc.Unlinking? then
        Removed(SetPc(w, k, Guarding(w.attempts[k].pc.outcome)), ns.temp(k), ok)
      else w
    case GuardDrop(k, ok) =>
      if k in w.attempts && w.attempts[k].pc.Guarding? then
        Removed(SetPc(w, k, Ended(w.attempts[k].pc.outcome, ok)), ns.temp(k), ok)
      else w
    case Cancel(k) =>
      if At(w, k, Fetching) then SetPc(w, k, Guarding(Cancelled)) else w
    case Sweep(k, name) =>
      if ns.model(k.file) && ns.swept(name, k) then w.(dir := w.dir - {name}) else w
    case Kill(pid) => KillAll(w, pid)
  }

  function Stepping(ns: Names): (World, Label) -> World {
    (w: World, l: Label) => Next(ns, w, l)
  }

  function InodeBytes(w: World, present: map<string, Bytes>, i: Inode): Bytes {
    match i
    case Original(name) => if name in present then present[name] else []
    case Of(k) => if k in w.attempts then w.attempts[k].written else []
  }

  lemma TheirNamesAreApart()
    ensures Apart(THEIRS)
  {
    forall k, j | TempOf(k) == TempOf(j) ensures k == j {
      TempNamesAreInjective(k.file, k.pid, k.n, j.file, j.pid, j.n);
    }
    forall k ensures !IsModelFile(TempOf(k)) {
      EndsInDigit(TempOf(k), Digits(k.n));
    }
    forall name, k | SweptBy(name, k) ensures !IsModelFile(name) {
      EndsInDigit(name, name[|TempPrefix(k.file, k.pid)|..]);
    }
  }

  lemma EndsInDigit(name: string, digits: string)
    requires digits != "" && AllDigits(digits) && |digits| <= |name| && name[|name| - |digits|..] == digits
    ensures !IsModelFile(name)
  {
    assert name[|name| - 1] == digits[|digits| - 1];
  }

  // ---- What every step keeps ----------------------------------------------------

  /** Whole: every byte of a fetch that succeeded has been written. */
  predicate Whole(a: Attempt) {
    a.fetched && a.written == a.delivered
  }

  predicate KeyOk(ns: Names, w: World, k: Key)
    requires k in w.attempts
  {
    var a := w.attempts[k];
    && ns.model(k.file)
    && k.pid in w.counters && k.n < w.counters[k.pid]
    && (!a.writeErr ==> a.written == a.delivered)
    && (a.pc.Syncing? || a.pc.Renaming? ==> Whole(a) && !a.writeErr)
    && (a.pc.Ended? && a.pc.outcome.Done? ==> Whole(a) && a.pc.cleaned)
    && ((a.pc.Unlinking? || a.pc.Guarding?) ==> !a.pc.outcome.Done?)
    && (a.pc.Ended? && a.pc.cleaned ==> ns.temp(k) !in w.dir)
    && (ns.temp(k) in w.dir && (a.pc.Fetching? || a.pc.Syncing? || a.pc.Renaming?) ==> w.dir[ns.temp(k)] == Of(k))
  }

  /** What a model's name leads to: what it led to at first, or the file of an attempt that succeeded. */
  predicate NameOk(w: World, present: map<string, Bytes>, name: string) {
    && (name in present ==> name in w.dir)
    && (name in w.dir ==>
          match w.dir[name]
          case Original(m) => m == name && name in present
          case Of(k) => k.file == name && k in w.attempts && w.attempts[k].pc == Ended(Done, true))
  }

  ghost predicate Inv(ns: Names, w: World, present: map<string, Bytes>) {
    && (forall k :: k in w.attempts ==> KeyOk(ns, w, k))
    && (forall name :: ns.model(name) ==> NameOk(w, present, name))
  }

  /** A step of attempt `k` that leaves the directory alone keeps everything said of the others. */
  lemma Touched(ns: Names, w: World, present: map<string, Bytes>, k: Key, a: Attempt, w': World)
    requires Apart(ns) && Inv(ns, w, present) && k in w.attempts
    requires w' == w.(attempts := w.attempts[k := a])
    requires KeyOk(ns, w', k)
    requires w.attempts[k].pc.Ended? ==> w.attempts[k].pc == a.pc
    ensures Inv(ns, w', present)
  {
    forall j | j in w'.attempts && j != k ensures KeyOk(ns, w', j) {
      assert KeyOk(ns, w, j);
    }
    forall name | ns.model(name) ensures NameOk(w', present, name) {
      assert NameOk(w, present, name);
    }
  }

  /** Removing a temporary file of an attempt, or any name that no model has. */
  lemma Cleared(ns: Names, w: World, present: map<string, Bytes>, gone: string, w': World)
    requires Apart(ns) && Inv(ns, w, present)
    requires !ns.model(gone) && w' == w.(dir := w.dir - {gone})
    ensures Inv(ns, w', present)
  {
    forall j | j in w'.attempts ensures KeyOk(ns, w', j) {
      assert KeyOk(ns, w, j);
    }
    forall name | ns.model(name) ensures NameOk(w', present, name) {
      assert NameOk(w, present, name);
    }
  }

  lemma StartKeeps(ns: Names, w: World, present: map<string, Bytes>, file: string, pid: nat, created: bool)
    requires Apart(ns) && Inv(ns, w, present) && ns.model(file)
    ensures Inv(ns, Start(ns, w, file, pid, created), present)
  {
    var k := Key(file, pid, if pid in w.counters then w.counters[pid] else 0);
    var w' := Start(ns, w, file, pid, created);
    assert k !in w.attempts by {
      assert k in w.attempts ==> KeyOk(ns, w, k);
    }
    forall j | j in w'.attempts ensures KeyOk(ns, w', j) {
      if j != k {
        assert KeyOk(ns, w, j);
        assert ns.temp(k) != ns.temp(j);
      }
    }
    forall name | ns.model(name) ensures NameOk(w', present, name) {
      assert NameOk(w, present, name);
    }
  }

  lemma RenameKeeps(ns: Names, w: World, present: map<string, Bytes>, k: Key)
    requires Apart(ns) && Inv(ns, w, present) && At(w, k, Renaming) && ns.temp(k) in w.dir
    ensures Inv(ns, Renamed(ns, w, k), present)
  {
    var w' := Renamed(ns, w, k);
    assert KeyOk(ns, w, k);
    forall j | j in w'.attempts ensures KeyOk(ns, w', j) {
      assert KeyOk(ns, w, j);
      assert j != k ==> ns.temp(k) != ns.temp(j);
    }
    forall name | ns.model(name) ensures NameOk(w', present, name) {
      assert NameOk(w, present, name);
    }
  }

  lemma KillKeeps(ns: Names, w: World, present: map<string, Bytes>, pid: nat)
    requires Apart(ns) && Inv(ns, w, present)
    ensures Inv(ns, KillAll(w, pid), present)
  {
    var w' := KillAll(w, pid);
    forall j | j in w'.attempts ensures KeyOk(ns, w', j) {
      assert KeyOk(ns, w, j);
    }
    forall name | ns.model(name) ensures NameOk(w', present, name) {
      assert NameOk(w, present, name);
    }
  }

  /** The last step of a way out: the removal may fail, and then the attempt says so. */
  lemma LeaveKeeps(ns: Names, w: World, present: map<string, Bytes>, k: Key, pc: Pc, ok: bool)
    requires Apart(ns) && Inv(ns, w, present) && k in w.attempts
    requires w.attempts[k].pc.Unlinking? || w.attempts[k].pc.Guarding?
    requires pc == Guarding(w.attempts[k].pc.outcome) || pc == Ended(w.attempts[k].pc.outcome, ok)
    ensures Inv(ns, Removed(SetPc(w, k, pc), ns.temp(k), ok), present)
  {
    assert KeyOk(ns, w, k);
    var cleared := Removed(w, ns.temp(k), ok);
    if ok {
      Cleared(ns, w, present, ns.temp(k), cleared);
    }
    Touched(ns, cleared, present, k, cleared.attempts[k].(pc := pc), SetPc(cleared, k, pc));
    assert SetPc(cleared, k, pc) == Removed(SetPc(w, k, pc), ns.temp(k), ok);
  }

  lemma ChunkKeeps(ns: Names, w: World, present: map<string, Bytes>, k: Key, bytes: Bytes, taken: nat)
    requires Apart(ns) && Inv(ns, w, present) && At(w, k, Fetching)
    ensures Inv(ns, Next(ns, w, Deliver(k, bytes, taken)), present)
  {
    assert KeyOk(ns, w, k);
    Touched(ns, w, present, k, Fed(w.attempts[k], bytes, taken), Next(ns, w, Deliver(k, bytes, taken)));
  }

  lemma FetchEndKeeps(ns: Names, w: World, present: map<string, Bytes>, k: Key, ok: bool)
    requires Apart(ns) && Inv(ns, w, present) && At(w, k, Fetching)
    ensures Inv(ns, Next(ns, w, FetchEnds(k, ok)), present)
  {
    assert KeyOk(ns, w, k);
    Touched(ns, w, present, k, AfterFetch(w.attempts[k], ok), Next(ns, w, FetchEnds(k, ok)));
  }

  /** Moves that change nothing but the place in the code: on to the rename, or on to a way out. */
  lemma MoveKeeps(ns: Names, w: World, present: map<string, Bytes>, k: Key, pc: Pc)
    requires Apart(ns) && Inv(ns, w, present) && k in w.attempts
    requires || (w.attempts[k].pc == Syncing && pc == Renaming)
             || (w.attempts[k].pc in {Fetching, Syncing, Renaming} && pc in {Unlinking(LocalFailed), Guarding(Cancelled)})
    ensures Inv(ns, SetPc(w, k, pc), present)
  {
    assert KeyOk(ns, w, k);
    Touched(ns, w, present, k, w.attempts[k].(pc := pc), SetPc(w, k, pc));
  }

  lemma RenameStepKeeps(ns: Names, w: World, present: map<string, Bytes>, k: Key, ok: bool)
    requires Apart(ns) && Inv(ns, w, present) && At(w, k, Renaming)
    ensures Inv(ns, Next(ns, w, Rename(k, ok)), present)
  {
    if ok && ns.temp(k) in w.dir {
      RenameKeeps(ns, w, present, k);
    } else {
      MoveKeeps(ns, w, present, k, Unlinking(LocalFailed));
    }
  }

  lemma StepKeepsInv(ns: Names, w: World, present: map<string, Bytes>, l: Label)
    requires Apart(ns) && Inv(ns, w, present)
    ensures Inv(ns, Next(ns, w, l), present)
  {
    match l
    case Begin(file, pid, created) =>
      if ns.model(file) { StartKeeps(ns, w, present, file, pid, created); }
    case Unlink(k, ok) =>
      if k in w.attempts && w.attempts[k].pc.Unlinking? {
        LeaveKeeps(ns, w, present, k, Guarding(w.attempts[k].pc.outcome), ok);
      }
    case GuardDrop(k, ok) =>
      if k in w.attempts && w.attempts[k].pc.Guarding? {
        LeaveKeeps(ns, w, present, k, Ended(w.attempts[k].pc.outcome, ok), ok);
      }
    case Sweep(k, name) =>
      if ns.model(k.file) && ns.swept(name, k) {
        Cleared(ns, w, present, name, Next(ns, w, l));
      }
    case Kill(pid) => KillKeeps(ns, w, present, pid);
    case Deliver(k, bytes, taken) => if At(w, k, Fetching) { ChunkKeeps(ns, w, present, k, bytes, taken); }
    case FetchEnds(k, ok) => if At(w, k, Fetching) { FetchEndKeeps(ns, w, present, k, ok); }
    case SyncEnds(k, ok) =>
      if At(w, k, Syncing) { MoveKeeps(ns, w, present, k, if ok then Renaming else Unlinking(LocalFailed)); }
    case Cancel(k) => if At(w, k, Fetching) { MoveKeeps(ns, w, present, k, Guarding(Cancelled)); }
    case Rename(k, ok) => if At(w, k, Renaming) { RenameStepKeeps(ns, w, present, k, ok); }
  }

  lemma {:induction false} RunKeepsInv(ns: Names, present: map<string, Bytes>, labels: seq<Label>)
    requires Apart(ns)
    ensures Inv(ns, Run(Stepping(ns), Initial(present), labels), present)
  {
    if labels != [] {
      RunKeepsInv(ns, present, labels[..|labels| - 1]);
      StepKeepsInv(ns, Run(Stepping(ns), Initial(present), labels[..|labels| - 1]), present, labels[|labels| - 1]);
    }
  }

  // ---- Main results -------------------------------------------------------------

  /** The bytes under a model's name. */
  function Contents(w: World, present: map<string, Bytes>, name: string): Bytes
    requires name in w.dir
  {
    InodeBytes(w, present, w.dir[name])
  }

  predicate Replaces(ns: Names, w: World, l: Label, name: string) {
    l.Rename? && l.ok && l.key.file == name && At(w, l.key, Renaming) && ns.temp(l.key) in w.dir
  }

  predicate SameModel(w: World, present: map<string, Bytes>, w': World, name: string) {
    && (name in w'.dir <==> name in w.dir)
    && (name in w.dir ==> Contents(w', present, name) == Contents(w, present, name))
  }

  lemma ReplacedWhole(ns: Names, w: World, present: map<string, Bytes>, l: Label, name: string)
    requires Apart(ns) && Inv(ns, w, present) && ns.model(name) && Replaces(ns, w, l, name)
    ensures name in Next(ns, w, l).dir && Contents(Next(ns, w, l), present, name) == w.attempts[l.key].delivered
  {
    assert KeyOk(ns, w, l.key);
  }

  /** Steps of one attempt leave the files of the others as they are, and a finished attempt takes none. */
  lemma SameInode(ns: Names, w: World, present: map<string, Bytes>, k: Key, w': World, name: string)
    requires Apart(ns) && Inv(ns, w, present) && ns.model(name) && k in w.attempts && !w.attempts[k].pc.Ended?
    requires w'.attempts.Keys == w.attempts.Keys
    requires forall j :: j in w.attempts && j != k ==> w'.attempts[j].written == w.attempts[j].written
    requires (name in w'.dir <==> name in w.dir) && (name in w.dir ==> w'.dir[name] == w.dir[name])
    ensures SameModel(w, present, w', name)
  {
    assert NameOk(w, present, name);
  }

  lemma OwnStepSpares(ns: Names, w: World, present: map<string, Bytes>, l: Label, name: string)
    requires Apart(ns) && Inv(ns, w, present) && ns.model(name) && !Replaces(ns, w, l, name)
    requires l.Deliver? || l.FetchEnds? || l.SyncEnds? || l.Cancel?
    ensures SameModel(w, present, Next(ns, w, l), name)
  {
    if l.key in w.attempts && !w.attempts[l.key].pc.Ended? {
      SameInode(ns, w, present, l.key, Next(ns, w, l), name);
    }
  }

  lemma NameStepSpares(ns: Names, w: World, present: map<string, Bytes>, l: Label, name: string)
    requires Apart(ns) && Inv(ns, w, present) && ns.model(name) && !Replaces(ns, w, l, name)
    requires l.Rename? || l.Unlink? || l.GuardDrop?
    ensures SameModel(w, present, Next(ns, w, l), name)
  {
    hide Inv, Contents;
    if l.key in w.attempts && !w.attempts[l.key].pc.Ended? {
      SameInode(ns, w, present, l.key, Next(ns, w, l), name);
    }
  }

  lemma OtherStepSpares(ns: Names, w: World, present: map<string, Bytes>, l: Label, name: string)
    requires Apart(ns) && Inv(ns, w, present) && ns.model(name)
    requires l.Begin? || l.Sweep? || l.Kill?
    ensures SameModel(w, present, Next(ns, w, l), name)
  {
    assert NameOk(w, present, name);
    if l.Begin? {
      var k := Key(l.file, l.pid, if l.pid in w.counters then w.counters[l.pid] else 0);
      assert k in w.attempts ==> KeyOk(ns, w, k);
    }
  }

  predicate Produced(w: World, name: string, k: Key, bytes: Bytes) {
    k.file == name && k in w.attempts && w.attempts[k].pc == Ended(Done, true) &&
    w.attempts[k].fetched && w.attempts[k].delivered == bytes
  }

  /**
   At every moment of every run a model's name holds what it held at first or the complete bytes of
   one successful fetch for it, and a model that was there never goes missing.
   */
  lemma ModelsAreWhole(ns: Names, present: map<string, Bytes>, labels: seq<Label>, name: string)
    requires Apart(ns)
    requires ns.model(name)
    ensures var w := Run(Stepping(ns), Initial(present), labels);
      && (name in present ==> name in w.dir)
      && (name in w.dir ==>
            || (name in present && Contents(w, present, name) == present[name])
            || exists k :: Produced(w, name, k, Contents(w, present, name)))
  {
    RunKeepsInv(ns, present, labels);
    var w := Run(Stepping(ns), Initial(present), labels);
    assert NameOk(w, present, name);
    if name in w.dir && w.dir[name].Of? {
      var k := w.dir[name].key;
      assert KeyOk(ns, w, k);
      assert Produced(w, name, k, Contents(w, present, name));
    }
  }

  /**
   The instant a model changes is the rename of a completed attempt for it: every other step, and every
   failed rename, leaves every model's bytes alone.
   */
  lemma OnlyRenameReplaces(ns: Names, present: map<string, Bytes>, labels: seq<Label>, l: Label, name: string)
    requires Apart(ns)
    requires ns.model(name)
    ensures var w := Run(Stepping(ns), Initial(present), labels);
      if Replaces(ns, w, l, name) then
        name in Next(ns, w, l).dir && Contents(Next(ns, w, l), present, name) == w.attempts[l.key].delivered
      else SameModel(w, present, Next(ns, w, l), name)
  {
    var w := Run(Stepping(ns), Initial(present), labels);
    RunKeepsInv(ns, present, labels);
    if Replaces(ns, w, l, name) {
      ReplacedWhole(ns, w, present, l, name);
    } else if l.Begin? || l.Sweep? || l.Kill? {
      OtherStepSpares(ns, w, present, l, name);
    } else if l.Rename? || l.Unlink? || l.GuardDrop? {
      NameStepSpares(ns, w, present, l, name);
    } else {
      OwnStepSpares(ns, w, present, l, name);
    }
  }

  function StateAt(ns: Names, present: map<string, Bytes>, labels: seq<Label>, i: nat): World {
    Run(Stepping(ns), Initial(present), if i <= |labels| then labels[..i] else labels)
  }

  lemma StateStep(ns: Names, present: map<string, Bytes>, labels: seq<Label>, i: nat)
    requires i < |labels|
    ensures StateAt(ns, present, labels, i + 1) == Next(ns, StateAt(ns, present, labels, i), labels[i])
  {
    RunSnoc(Stepping(ns), Initial(present), labels[..i], labels[i]);
    assert labels[..i + 1] == labels[..i] + [labels[i]];
  }

  lemma StateKeepsInv(ns: Names, present: map<string, Bytes>, labels: seq<Label>, i: nat)
    requires Apart(ns)
    ensures Inv(ns, StateAt(ns, present, labels, i), present)
  {
    RunKeepsInv(ns, present, if i <= |labels| then labels[..i] else labels);
  }

  /** The step creates the temporary file of attempt `k`. */
  predicate Creates(ns: Names, w: World, l: Label, k: Key) {
    && l == Begin(k.file, k.pid, true) && ns.model(k.file) && k.pid !in w.dead
    && k.n == if k.pid in w.counters then w.counters[k.pid] else 0
  }

  /** The step takes that name away: the rename, a removal that is not refused, or a sweep. */
  predicate TakesAway(ns: Names, w: World, l: Label, k: Key) {
    || (l == Rename(k, true) && At(w, k, Renaming))
    || (l == Unlink(k, true) && k in w.attempts && w.attempts[k].pc.Unlinking?)
    || (l == GuardDrop(k, true) && k in w.attempts && w.attempts[k].pc.Guarding?)
    || (l.Sweep? && l.name == ns.temp(k) && ns.model(l.key.file) && ns.swept(l.name, l.key))
  }

  lemma TempStep(ns: Names, w: World, present: map<string, Bytes>, l: Label, k: Key)
    requires Apart(ns) && Inv(ns, w, present)
    ensures ns.temp(k) in Next(ns, w, l).dir <==>
      Creates(ns, w, l, k) || (ns.temp(k) in w.dir && !TakesAway(ns, w, l, k))
  {
    if l.Rename? && l.key in w.attempts { assert KeyOk(ns, w, l.key); }
    if (l.Rename? || l.Unlink? || l.GuardDrop?) && l.key != k { assert ns.temp(l.key) != ns.temp(k); }
    if l.Begin? {
      var j := Key(l.file, l.pid, if l.pid in w.counters then w.counters[l.pid] else 0);
      assert j != k ==> ns.temp(j) != ns.temp(k);
    }
  }

  ghost predicate NotTakenFrom(ns: Names, present: map<string, Bytes>, labels: seq<Label>, k: Key, i: nat) {
    forall j: nat :: i <= j < |labels| ==> !TakesAway(ns, StateAt(ns, present, labels, j), labels[j], k)
  }

  /** Step `i` created the file, and since then every removal of it was refused and no sweep took it. */
  ghost predicate LeftFrom(ns: Names, present: map<string, Bytes>, labels: seq<Label>, k: Key, i: nat) {
    && i < |labels| && Creates(ns, StateAt(ns, present, labels, i), labels[i], k)
    && NotTakenFrom(ns, present, labels, k, i + 1)
  }

  /**
   The temporary name of an attempt, however it ended or whether it did, is there exactly when the attempt created it,
   or it was there at first, and since then it was not renamed, every removal of it was refused and no sweep took it.
   */
  lemma TempStaysExactly(ns: Names, present: map<string, Bytes>, labels: seq<Label>, k: Key)
    requires Apart(ns)
    ensures ns.temp(k) in Run(Stepping(ns), Initial(present), labels).dir <==>
      || (ns.temp(k) in present && NotTakenFrom(ns, present, labels, k, 0))
      || exists i: nat :: LeftFrom(ns, present, labels, k, i)
  {
    hide StateAt, Next, Inv, Creates, TakesAway, Apart;
    var n := |labels|;
    var p := (i: nat) => ns.temp(k) in StateAt(ns, present, labels, i).dir;
    var up := (i: nat) => i < n && Creates(ns, StateAt(ns, present, labels, i), labels[i], k);
    var down := (i: nat) => i < n && TakesAway(ns, StateAt(ns, present, labels, i), labels[i], k);
    StateEnds(ns, present, labels, k);
    forall i: nat | i < n ensures p(i + 1) <==> up(i) || (p(i) && !down(i)) {
      StateStep(ns, present, labels, i);
      StateKeepsInv(ns, present, labels, i);
      TempStep(ns, StateAt(ns, present, labels, i), present, labels[i], k);
    }
    HoldsSince(p, up, down, n);
    if p(0) && forall i: nat :: i < n ==> !down(i) {
      forall j: nat | 0 <= j < n ensures !TakesAway(ns, StateAt(ns, present, labels, j), labels[j], k) { assert !down(j); }
    }
    if i: nat :| i < n && up(i) && forall j: nat :: i < j < n ==> !down(j) {
      forall j: nat | i + 1 <= j < n ensures !TakesAway(ns, StateAt(ns, present, labels, j), labels[j], k) { assert !down(j); }
      assert LeftFrom(ns, present, labels, k, i);
    }
    if i: nat :| LeftFrom(ns, present, labels, k, i) {
      assert up(i) && forall j: nat :: i < j < n ==> !down(j);
    }
  }

  lemma StateEnds(ns: Names, present: map<string, Bytes>, labels: seq<Label>, k: Key)
    ensures StateAt(ns, present, labels, |labels|) == Run(Stepping(ns), Initial(present), labels)
    ensures ns.temp(k) in StateAt(ns, present, labels, 0).dir <==> ns.temp(k) in present
  {
    assert labels[..|labels|] == labels;
  }

  lemma CleanedUnlessRefused(ns: Names, w: World, l: Label, k: Key)
    requires k in Next(ns, w, l).attempts
    requires k in w.attempts && w.attempts[k].pc.Ended? ==> w.attempts[k].pc.cleaned
    requires l != GuardDrop(k, false)
    ensures Next(ns, w, l).attempts[k].pc.Ended? ==> Next(ns, w, l).attempts[k].pc.cleaned
  {
  }

  /** An attempt says that its file may remain only when its guard was refused the removal. */
  lemma {:induction false} RefusalsAreReal(ns: Names, present: map<string, Bytes>, labels: seq<Label>, k: Key)
    requires k in Run(Stepping(ns), Initial(present), labels).attempts
    requires GuardDrop(k, false) !in labels
    ensures var a := Run(Stepping(ns), Initial(present), labels).attempts[k]; a.pc.Ended? ==> a.pc.cleaned
  {
    if labels != [] {
      hide Next;
      var front, l := labels[..|labels| - 1], labels[|labels| - 1];
      assert labels == front + [l];
      var w := Run(Stepping(ns), Initial(present), front);
      if k in w.attempts { RefusalsAreReal(ns, present, front, k); }
      CleanedUnlessRefused(ns, w, l, k);
    }
  }

  lemma EndedIsClean(ns: Names, w: World, present: map<string, Bytes>, k: Key)
    requires Inv(ns, w, present) && k in w.attempts
    ensures w.attempts[k].pc.Ended? && w.attempts[k].pc.cleaned ==> ns.temp(k) !in w.dir
  {
    assert KeyOk(ns, w, k);
  }

  /** An attempt that has ended left no temporary file unless its guard was refused the removal. */
  lemma EndedLeavesNoTemp(ns: Names, present: map<string, Bytes>, labels: seq<Label>, k: Key)
    requires Apart(ns)
    requires k in Run(Stepping(ns), Initial(present), labels).attempts
    requires Run(Stepping(ns), Initial(present), labels).attempts[k].pc.Ended?
    requires GuardDrop(k, false) !in labels
    ensures ns.temp(k) !in Run(Stepping(ns), Initial(present), labels).dir
  {
    hide Next, Inv;
    RunKeepsInv(ns, present, labels);
    RefusalsAreReal(ns, present, labels, k);
    EndedIsClean(ns, Run(Stepping(ns), Initial(present), labels), present, k);
  }

  /** Once every attempt has ended and no removal was refused, no temporary file of any of them is left. */
  lemma QuietLeavesNoTemps(ns: Names, present: map<string, Bytes>, labels: seq<Label>)
    requires Apart(ns)
    requires var w := Run(Stepping(ns), Initial(present), labels);
      forall k :: k in w.attempts ==> w.attempts[k].pc.Ended? && GuardDrop(k, false) !in labels
    ensures var w := Run(Stepping(ns), Initial(present), labels);
      forall k :: k in w.attempts ==> ns.temp(k) !in w.dir
  {
    hide Next;
    var w := Run(Stepping(ns), Initial(present), labels);
    forall k | k in w.attempts ensures ns.temp(k) !in w.dir {
      EndedLeavesNoTemp(ns, present, labels, k);
    }
  }

  /** At some step of the run the complete bytes of attempt `k` took their model's name. */
  ghost predicate Took(ns: Names, present: map<string, Bytes>, labels: seq<Label>, k: Key) {
    exists i :: 0 <= i < |labels| && labels[i] == Rename(k, true) &&
      Replaces(ns, Run(Stepping(ns), Initial(present), labels[..i]), labels[i], k.file)
  }

  lemma DoneByRename(ns: Names, w: World, l: Label, k: Key)
    requires k in w.attempts && w.attempts[k].pc != Ended(Done, true) && !(w.attempts[k].pc in {Guarding(Done), Unlinking(Done)})
    requires k in Next(ns, w, l).attempts && Next(ns, w, l).attempts[k].pc == Ended(Done, true)
    ensures l == Rename(k, true) && Replaces(ns, w, l, k.file)
  {
  }

  /** An attempt that reports success did replace the model, with everything that was delivered to it. */
  lemma {:induction false} DoneMeansReplaced(ns: Names, present: map<string, Bytes>, labels: seq<Label>, k: Key)
    requires Apart(ns)
    requires At(Run(Stepping(ns), Initial(present), labels), k, Ended(Done, true))
    ensures Took(ns, present, labels, k)
  {
    hide Replaces, Inv, Next;
    var front, l := labels[..|labels| - 1], labels[|labels| - 1];
    var w := Run(Stepping(ns), Initial(present), front);
    RunKeepsInv(ns, present, front);
    if At(w, k, Ended(Done, true)) {
      DoneMeansReplaced(ns, present, front, k);
      var i :| 0 <= i < |front| && front[i] == Rename(k, true) &&
        Replaces(ns, Run(Stepping(ns), Initial(present), front[..i]), front[i], k.file);
      assert front[..i] == labels[..i] && labels[i] == front[i];
    } else {
      NotYetDone(ns, w, present, l, k);
      DoneByRename(ns, w, l, k);
      assert labels[..|front|] == front;
    }
  }

  lemma NotYetDone(ns: Names, w: World, present: map<string, Bytes>, l: Label, k: Key)
    requires Inv(ns, w, present) && At(Next(ns, w, l), k, Ended(Done, true))
    ensures k in w.attempts && !(w.attempts[k].pc in {Guarding(Done), Unlinking(Done)})
  {
    assert k in w.attempts ==> KeyOk(ns, w, k);
  }

  // ---- A transfer with nothing in its way -----------------------------------------

  /** The next attempt of process `pid` for `file`. */
  function NextKey(w: World, file: string, pid: nat): Key {
    Key(file, pid, if pid in w.counters then w.counters[pid] else 0)
  }

  lemma BeginsAlone(ns: Names, w: World, file: string, pid: nat)
    requires ns.model(file) && pid !in w.dead
    ensures var k := NextKey(w, file, pid);
      var n := Next(ns, w, Begin(file, pid, true));
      && k in n.attempts && n.attempts[k] == Attempt(Fetching, [], [], false, false)
      && n.dir == w.dir[ns.temp(k) := Of(k)]
  {
  }

  lemma FetchesAlone(ns: Names, w: World, k: Key, bytes: Bytes)
    requires k in w.attempts && w.attempts[k] == Attempt(Fetching, [], [], false, false)
    ensures var n := Next(ns, Next(ns, Next(ns, w, Deliver(k, bytes, |bytes|)), FetchEnds(k, true)), SyncEnds(k, true));
      k in n.attempts && n.attempts[k] == Attempt(Renaming, bytes, bytes, false, true) && n.dir == w.dir
  {
    assert [] + bytes == bytes;
  }

  lemma RenamesAlone(ns: Names, w: World, k: Key)
    requires At(w, k, Renaming) && ns.temp(k) in w.dir && w.dir[ns.temp(k)] == Of(k) && ns.temp(k) != k.file
    ensures var n := Next(ns, w, Rename(k, true));
      && At(n, k, Ended(Done, true)) && n.attempts[k].written == w.attempts[k].written
      && k.file in n.dir && n.dir[k.file] == Of(k) && ns.temp(k) !in n.dir
  {
  }

  /** From every world a transfer that meets no failure puts its bytes under its model's name and leaves no temporary file. */
  lemma TransferReplaces(ns: Names, w: World, present: map<string, Bytes>, file: string, pid: nat, bytes: Bytes)
    requires Apart(ns) && ns.model(file) && pid !in w.dead
    ensures var k := NextKey(w, file, pid);
      var n := Run(Stepping(ns), w,
        [Begin(file, pid, true), Deliver(k, bytes, |bytes|), FetchEnds(k, true), SyncEnds(k, true), Rename(k, true)]);
      && At(n, k, Ended(Done, true)) && ns.temp(k) !in n.dir
      && file in n.dir && Contents(n, present, file) == bytes
  {
    hide Next;
    var k := NextKey(w, file, pid);
    BeginsAlone(ns, w, file, pid);
    var begun := Next(ns, w, Begin(file, pid, true));
    FetchesAlone(ns, begun, k, bytes);
    var synced := Next(ns, Next(ns, Next(ns, begun, Deliver(k, bytes, |bytes|)), FetchEnds(k, true)), SyncEnds(k, true));
    RenamesAlone(ns, synced, k);
    RunFive(Stepping(ns), w,
      Begin(file, pid, true), Deliver(k, bytes, |bytes|), FetchEnds(k, true), SyncEnds(k, true), Rename(k, true));
  }

  /** A sweep takes every temporary name that it matches, and a kill ends every attempt of its process where it is. */
  lemma SweepsAndKills(ns: Names, w: World, k: Key, name: string, pid: nat)
    ensures ns.model(k.file) && ns.swept(name, k) ==> Next(ns, w, Sweep(k, name)).dir == w.dir - {name}
    ensures var n := Next(ns, w, Kill(pid));
      && pid in n.dead && n.dir == w.dir
      && forall j :: j in w.attempts && j.pid == pid ==> j in n.attempts && (n.attempts[j].pc.Ended? || n.attempts[j].pc == Killed)
  {
  }

  /** How attempt `k` fails by step `l`: the source breaks off, the disk refuses or already has, or the caller goes away. */
  function FailsAs(w: World, k: Key, l: Label): Option<Outcome> {
    if At(w, k, Fetching) && l == FetchEnds(k, false) then Some(FetcherFailed)
    else if At(w, k, Fetching) && l == FetchEnds(k, true) && w.attempts[k].writeErr then Some(LocalFailed)
    else if At(w, k, Fetching) && l == Cancel(k) then Some(Cancelled)
    else if At(w, k, Syncing) && l == SyncEnds(k, false) then Some(LocalFailed)
    else if At(w, k, Renaming) && l == Rename(k, false) then Some(LocalFailed)
    else None
  }

  lemma FailsAlone(ns: Names, w: World, k: Key, l: Label)
    requires FailsAs(w, k, l).Some?
    ensures var n, o := Next(ns, w, l), FailsAs(w, k, l).value;
      n.dir == w.dir && (At(n, k, Unlinking(o)) || At(n, k, Guarding(o))) && n.attempts[k].written == w.attempts[k].written
  {
  }

  lemma CleansAlone(ns: Names, w: World, k: Key, o: Outcome)
    requires At(w, k, Unlinking(o)) || At(w, k, Guarding(o))
    ensures var n := Next(ns, Next(ns, w, Unlink(k, true)), GuardDrop(k, true));
      At(n, k, Ended(o, true)) && n.dir == w.dir - {ns.temp(k)}
  {
    assert w.dir - {ns.temp(k)} - {ns.temp(k)} == w.dir - {ns.temp(k)};
  }

  /** From every world an attempt that fails is over after its own clean-up, as what it failed, and has taken its temporary file alone. */
  lemma FailedTransferLeaves(ns: Names, w: World, k: Key, l: Label)
    requires FailsAs(w, k, l).Some?
    ensures var n := Run(Stepping(ns), w, [l, Unlink(k, true), GuardDrop(k, true)]);
      At(n, k, Ended(FailsAs(w, k, l).value, true)) && n.dir == w.dir - {ns.temp(k)}
  {
    hide Next;
    RunThree(Stepping(ns), w, l, Unlink(k, true), GuardDrop(k, true));
    FailsAlone(ns, w, k, l);
    CleansAlone(ns, Next(ns, w, l), k, FailsAs(w, k, l).value);
  }
}
