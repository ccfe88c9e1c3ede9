// Numbered files that workers add to: each looks for its file, writes a temporary one and renames it
// into place. What interleaved workers can and cannot do to the line of files, seen apart from what
// the files hold.
module History {
  import opened Prelude

  // What is stored: the first item, each item's number, the check every item is written through, the
  // items that belong to a line, and the next item for a piece of work.
  datatype Kind<!T, !E> = Kind(first: T, num: T -> nat, accepts: T -> bool, inLine: T -> bool, next: (T, E) -> Option<T>)

  ghost predicate Follows<T(!new), E(!new)>(kind: Kind<T, E>, earlier: T, later: T) {
    exists e :: kind.next(earlier, e) == Some(later)
  }

  ghost predicate Lawful<T(!new), E(!new)>(kind: Kind<T, E>) {
    && kind.inLine(kind.first) && kind.num(kind.first) == 0
    && (forall t :: kind.inLine(t) ==> kind.accepts(t))
    && (forall t, e :: kind.inLine(t) && kind.next(t, e).Some? ==>
          kind.inLine(kind.next(t, e).value) && kind.num(kind.next(t, e).value) == kind.num(t) + 1)
  }

  // Numbers 0, 1, 2, ... without a gap, each file following the one before.
  ghost predicate Line<T(!new), E(!new)>(files: map<nat, T>, kind: Kind<T, E>) {
    && (forall n :: n in files <==> 0 <= n < |files|)
    && (forall n :: n in files ==> kind.inLine(files[n]) && kind.num(files[n]) == n)
    && (forall m, n :: m in files && n in files && n == m + 1 ==> Follows(kind, files[m], files[n]))
    && (0 in files ==> files[0] == kind.first)
  }

  // The files only ever grow.
  predicate Keeps<T(==)>(before: map<nat, T>, after: map<nat, T>) {
    forall n :: n in before ==> n in after && after[n] == before[n]
  }

  // ---------------------------------------------------------------- one save

  // How the writing of a temporary file and its renaming go.
  datatype WriteOutcome = Renamed | RenameRefused | NotWritten

  // A save looks first: a file that is there already settles it, otherwise it goes on to write.
  datatype Look = Refused | Same | Differs | Absent

  function Looked<T(==), E>(files: map<nat, T>, item: T, kind: Kind<T, E>): Look {
    if !kind.accepts(item) then Refused
    else if kind.num(item) !in files then Absent
    else if files[kind.num(item)] == item then Same
    else Differs
  }

  datatype Landing = Stored | Clash | Failed

  // The rename replaces whatever is there by then; only a refused rename looks again.
  function Landed<T(==)>(files: map<nat, T>, n: nat, item: T, outcome: WriteOutcome): (Landing, map<nat, T>) {
    match outcome
    case Renamed => (Stored, files[n := item])
    case RenameRefused => (if n !in files then Failed else if files[n] == item then Stored else Clash, files)
    case NotWritten => (Failed, files)
  }

  predicate IsStored<T(==), E>(files: map<nat, T>, item: T, kind: Kind<T, E>) {
    kind.num(item) in files && files[kind.num(item)] == item
  }

  // An item a worker may go on to rename into place: the first one, or the next of one that is stored.
  ghost predicate MayLand<T(!new), E(!new)>(files: map<nat, T>, item: T, kind: Kind<T, E>) {
    && kind.inLine(item) && kind.num(item) <= |files|
    && if kind.num(item) == 0 then item == kind.first
       else kind.num(item) - 1 in files && Follows(kind, files[kind.num(item) - 1], item)
  }

  // A rename that puts another item over a stored one.
  predicate Displaces<T(==)>(files: map<nat, T>, n: nat, item: T, outcome: WriteOutcome) {
    outcome.Renamed? && n in files && files[n] != item
  }

  lemma FilesGrow<T>(files: map<nat, T>, n: nat, item: T)
    requires n !in files
    ensures |files[n := item]| == |files| + 1
  {
    assert files[n := item].Keys == files.Keys + {n};
    assert |files[n := item].Keys| == |files.Keys| + 1;
  }

  lemma FilesStay<T>(files: map<nat, T>, n: nat, item: T)
    requires n in files
    ensures |files[n := item]| == |files|
  {
    assert files[n := item].Keys == files.Keys;
    assert |files[n := item].Keys| == |files.Keys|;
  }

  lemma KeptIsNoSmaller<T(!new), E(!new)>(before: map<nat, T>, after: map<nat, T>, kind: Kind<T, E>)
    requires Line(before, kind) && Line(after, kind) && Keeps(before, after)
    ensures |before| <= |after|
  {
    if |before| > 0 {
      assert |before| - 1 in before;
      assert |before| - 1 in after;
    }
  }

  lemma AppendKeepsLine<T(!new), E(!new)>(files: map<nat, T>, item: T, kind: Kind<T, E>)
    requires Line(files, kind) && MayLand(files, item, kind) && kind.num(item) == |files|
    ensures Line(files[|files| := item], kind) && Keeps(files, files[|files| := item])
  {
    assert |files| !in files;
    FilesGrow(files, |files|, item);
  }

  // Short of displacing a file, writing one only ever adds to the line.
  lemma LandingKeepsLine<T(!new), E(!new)>(files: map<nat, T>, item: T, outcome: WriteOutcome, kind: Kind<T, E>)
    requires Line(files, kind) && MayLand(files, item, kind)
    ensures var (r, after) := Landed(files, kind.num(item), item, outcome);
            var displaces := Displaces(files, kind.num(item), item, outcome);
            && (Keeps(files, after) <==> !displaces)
            && (!displaces ==> Line(after, kind) && (!r.Stored? ==> after == files))
            && (r.Stored? ==> IsStored(after, item, kind))
  {
    var n := kind.num(item);
    if outcome.Renamed? {
      if n == |files| {
        AppendKeepsLine(files, item, kind);
      } else if files[n] == item {
        assert files[n := item] == files;
      } else {
        assert n in files && files[n := item][n] != files[n];
      }
    }
  }

  // A whole save of an item; `byThen` is what the files are at its rename, after what others stored.
  function SavedItem<T(==), E>(files: map<nat, T>, item: T, byThen: map<nat, T>, outcome: WriteOutcome, kind: Kind<T, E>): (bool, map<nat, T>) {
    match Looked(files, item, kind)
    case Same => (true, files)
    case Absent =>
      var (landing, after) := Landed(byThen, kind.num(item), item, outcome);
      (landing.Stored?, after)
    case _ => (false, files)
  }

  // A rename that would displace what others stored under the item's number since the look.
  predicate DisplacesOthers<T(==), E>(files: map<nat, T>, item: T, byThen: map<nat, T>, outcome: WriteOutcome, kind: Kind<T, E>) {
    Looked(files, item, kind).Absent? && Displaces(byThen, kind.num(item), item, outcome)
  }

  lemma SavingKeepsLine<T(!new), E(!new)>(files: map<nat, T>, item: T, byThen: map<nat, T>, outcome: WriteOutcome, kind: Kind<T, E>)
    requires Line(files, kind) && MayLand(files, item, kind) && Line(byThen, kind) && Keeps(files, byThen)
    ensures var (ok, after) := SavedItem(files, item, byThen, outcome, kind);
            && (ok ==> IsStored(after, item, kind))
            && if DisplacesOthers(files, item, byThen, outcome, kind) then !Keeps(byThen, after)
               else Line(after, kind) && Keeps(files, after)
  {
    if Looked(files, item, kind).Absent? {
      SaveKeepsLine(files, byThen, item, outcome, kind);
      SavesAbsent(files, item, byThen, outcome, kind);
    }
  }

  lemma SavesAbsent<T(!new), E(!new)>(files: map<nat, T>, item: T, byThen: map<nat, T>, outcome: WriteOutcome, kind: Kind<T, E>)
    requires Looked(files, item, kind).Absent?
    ensures var (landing, after) := Landed(byThen, kind.num(item), item, outcome);
            SavedItem(files, item, byThen, outcome, kind) == (landing.Stored?, after)
  {
  }

  function OutcomeIf(diskWorks: bool): WriteOutcome { if diskWorks then Renamed else NotWritten }

  // With nobody else at work, the item after the last one is saved exactly when the disk works.
  lemma SavesNext<T(!new), E(!new)>(files: map<nat, T>, item: T, diskWorks: bool, kind: Kind<T, E>)
    requires Lawful(kind) && Line(files, kind) && MayLand(files, item, kind) && kind.num(item) == |files|
    ensures SavedItem(files, item, files, OutcomeIf(diskWorks), kind) == (diskWorks, if diskWorks then files[|files| := item] else files)
  {
    assert |files| !in files;
  }

  // The rename of a save, while others may have added to the line since its look.
  lemma SaveKeepsLine<T(!new), E(!new)>(files: map<nat, T>, between: map<nat, T>, item: T, outcome: WriteOutcome, kind: Kind<T, E>)
    requires Line(files, kind) && Line(between, kind) && Keeps(files, between) && MayLand(files, item, kind)
    ensures var (r, after) := Landed(between, kind.num(item), item, outcome);
            var displaces := Displaces(between, kind.num(item), item, outcome);
            && (Keeps(between, after) <==> !displaces)
            && (!displaces ==> Line(after, kind) && Keeps(files, after))
            && (r.Stored? ==> IsStored(after, item, kind))
  {
    StillMayLand(files, between, item, kind);
    LandingKeepsLine(between, item, outcome, kind);
  }

  lemma StillMayLand<T(!new), E(!new)>(before: map<nat, T>, after: map<nat, T>, item: T, kind: Kind<T, E>)
    requires Line(before, kind) && Line(after, kind) && Keeps(before, after) && MayLand(before, item, kind)
    ensures MayLand(after, item, kind)
  {
    KeptIsNoSmaller(before, after, kind);
  }

  lemma NextMayLand<T(!new), E(!new)>(files: map<nat, T>, item: T, e: E, kind: Kind<T, E>)
    requires Lawful(kind) && Line(files, kind) && IsStored(files, item, kind) && kind.next(item, e).Some?
    ensures MayLand(files, kind.next(item, e).value, kind) && kind.num(kind.next(item, e).value) == kind.num(item) + 1
  {
    assert kind.num(item) < |files|;
  }

  // ---------------------------------------------------------------- many workers

  // Workers hold whatever item they last loaded or stored; one that looked and found nothing has an
  // item on its way to the disk.
  datatype Workers<T> = Workers(files: map<nat, T>, held: map<nat, T>, landing: map<nat, T>)

  datatype Move<E> =
    | Create(worker: nat)
    | Load(worker: nat, number: nat)
    | Check(worker: nat, work: E)
    | Land(worker: nat, outcome: WriteOutcome)
    | Leave(worker: nat)

  function Nobody<T>(): Workers<T> { Workers(map[], map[], map[]) }

  function Looking<T(==), E>(w: Workers<T>, worker: nat, item: T, kind: Kind<T, E>): Workers<T> {
    match Looked(w.files, item, kind)
    case Refused => w
    case Same => w.(held := w.held[worker := item])
    case Differs => w
    case Absent => w.(landing := w.landing[worker := item])
  }

  function Settling<T(==), E>(w: Workers<T>, worker: nat, outcome: WriteOutcome, kind: Kind<T, E>): Workers<T>
    requires worker in w.landing
  {
    var item := w.landing[worker];
    var (r, after) := Landed(w.files, kind.num(item), item, outcome);
    Workers(after, if r.Stored? then w.held[worker := item] else w.held, w.landing - {worker})
  }

  function Moved<T(==), E>(w: Workers<T>, move: Move<E>, kind: Kind<T, E>): Workers<T> {
    match move
    case Create(worker) => if worker in w.landing then w else Looking(w, worker, kind.first, kind)
    case Load(worker, number) =>
      if worker in w.landing || number !in w.files then w else w.(held := w.held[worker := w.files[number]])
    case Check(worker, work) =>
      if worker in w.landing || worker !in w.held || kind.next(w.held[worker], work).None? then w
      else Looking(w, worker, kind.next(w.held[worker], work).value, kind)
    case Land(worker, outcome) => if worker !in w.landing then w else Settling(w, worker, outcome, kind)
    case Leave(worker) => w.(held := w.held - {worker}, landing := w.landing - {worker})
  }

  function AfterMoves<T(==), E>(w: Workers<T>, moves: seq<Move<E>>, kind: Kind<T, E>): Workers<T>
    decreases |moves|
  {
    if moves == [] then w else AfterMoves(Moved(w, moves[0], kind), moves[1..], kind)
  }

  predicate AllStored<T(==), E>(files: map<nat, T>, held: map<nat, T>, kind: Kind<T, E>) {
    forall i :: i in held ==> IsStored(files, held[i], kind)
  }

  ghost predicate AllMayLand<T(!new), E(!new)>(files: map<nat, T>, landing: map<nat, T>, kind: Kind<T, E>) {
    forall i :: i in landing ==> MayLand(files, landing[i], kind)
  }

  ghost predicate Consistent<T(!new), E(!new)>(w: Workers<T>, kind: Kind<T, E>) {
    Line(w.files, kind) && AllStored(w.files, w.held, kind) && AllMayLand(w.files, w.landing, kind)
  }

  // The worker lands another item than someone else landed under that number since it looked, for it
  // found no file there then.
  predicate Overwrites<T(==), E>(w: Workers<T>, move: Move<E>, kind: Kind<T, E>) {
    move.Land? && move.worker in w.landing
    && Displaces(w.files, kind.num(w.landing[move.worker]), w.landing[move.worker], move.outcome)
  }

  lemma OneMoreHeld<T(!new), E(!new)>(files: map<nat, T>, held: map<nat, T>, worker: nat, item: T, kind: Kind<T, E>)
    requires AllStored(files, held, kind) && IsStored(files, item, kind)
    ensures AllStored(files, held[worker := item], kind)
  {
  }

  lemma OneMoreLanding<T(!new), E(!new)>(files: map<nat, T>, landing: map<nat, T>, worker: nat, item: T, kind: Kind<T, E>)
    requires AllMayLand(files, landing, kind) && MayLand(files, item, kind)
    ensures AllMayLand(files, landing[worker := item], kind)
  {
  }

  lemma LookingKeepsLine<T(!new), E(!new)>(w: Workers<T>, worker: nat, item: T, kind: Kind<T, E>)
    requires Consistent(w, kind) && MayLand(w.files, item, kind)
    ensures Consistent(Looking(w, worker, item, kind), kind) && Looking(w, worker, item, kind).files == w.files
  {
    OneMoreLanding(w.files, w.landing, worker, item, kind);
    if Looked(w.files, item, kind).Same? {
      OneMoreHeld(w.files, w.held, worker, item, kind);
    }
  }

  lemma AllStillStored<T(!new), E(!new)>(before: map<nat, T>, after: map<nat, T>, held: map<nat, T>, kind: Kind<T, E>)
    requires AllStored(before, held, kind) && Keeps(before, after)
    ensures AllStored(after, held, kind)
  {
  }

  lemma AllStillMayLand<T(!new), E(!new)>(before: map<nat, T>, after: map<nat, T>, landing: map<nat, T>, kind: Kind<T, E>)
    requires Line(before, kind) && Line(after, kind) && Keeps(before, after) && AllMayLand(before, landing, kind)
    ensures AllMayLand(after, landing, kind)
  {
    forall i | i in landing
      ensures MayLand(after, landing[i], kind)
    {
      StillMayLand(before, after, landing[i], kind);
    }
  }

  lemma LandKeepsLine<T(!new), E(!new)>(w: Workers<T>, worker: nat, outcome: WriteOutcome, kind: Kind<T, E>)
    requires Consistent(w, kind) && worker in w.landing
    ensures var after := Settling(w, worker, outcome, kind);
            var displaces := Displaces(w.files, kind.num(w.landing[worker]), w.landing[worker], outcome);
            && (Keeps(w.files, after.files) <==> !displaces)
            && (!displaces ==> Consistent(after, kind))
  {
    var item := w.landing[worker];
    LandingKeepsLine(w.files, item, outcome, kind);
    if !Displaces(w.files, kind.num(item), item, outcome) {
      var (r, files) := Landed(w.files, kind.num(item), item, outcome);
      AllStillStored(w.files, files, w.held, kind);
      if r.Stored? {
        OneMoreHeld(files, w.held, worker, item, kind);
      }
      AllStillMayLand(w.files, files, w.landing, kind);
    }
  }

  lemma MoveKeepsLine<T(!new), E(!new)>(w: Workers<T>, move: Move<E>, kind: Kind<T, E>)
    requires Lawful(kind) && Consistent(w, kind)
    ensures Keeps(w.files, Moved(w, move, kind).files) <==> !Overwrites(w, move, kind)
    ensures !Overwrites(w, move, kind) ==> Consistent(Moved(w, move, kind), kind)
  {
    match move
    case Create(worker) => LookingKeepsLine(w, worker, kind.first, kind);
    case Load(_, _) =>
    case Check(worker, work) =>
      if worker in w.held && kind.next(w.held[worker], work).Some? {
        NextMayLand(w.files, w.held[worker], work, kind);
        LookingKeepsLine(w, worker, kind.next(w.held[worker], work).value, kind);
      }
    case Land(worker, outcome) =>
      if worker in w.landing {
        LandKeepsLine(w, worker, outcome, kind);
      }
    case Leave(_) =>
  }

  // At every moment of the run the files are one line, and none stored before was lost or changed.
  ghost predicate StaysLine<T(!new), E(!new)>(w: Workers<T>, moves: seq<Move<E>>, kind: Kind<T, E>)
    decreases |moves|
  {
    moves == [] ||
    var after := Moved(w, moves[0], kind);
    Line(after.files, kind) && Keeps(w.files, after.files) && StaysLine(after, moves[1..], kind)
  }

  predicate NoneOverwritten<T(==), E>(w: Workers<T>, moves: seq<Move<E>>, kind: Kind<T, E>)
    decreases |moves|
  {
    moves == [] || (!Overwrites(w, moves[0], kind) && NoneOverwritten(Moved(w, moves[0], kind), moves[1..], kind))
  }

  lemma {:induction false} RunKeepsLine<T(!new), E(!new)>(w: Workers<T>, moves: seq<Move<E>>, kind: Kind<T, E>)
    requires Lawful(kind) && Consistent(w, kind)
    ensures StaysLine(w, moves, kind) <==> NoneOverwritten(w, moves, kind)
    ensures NoneOverwritten(w, moves, kind) ==> Consistent(AfterMoves(w, moves, kind), kind) && Keeps(w.files, AfterMoves(w, moves, kind).files)
    decreases |moves|
  {
    if moves != [] {
      MoveKeepsLine(w, moves[0], kind);
      if !Overwrites(w, moves[0], kind) {
        RunKeepsLine(Moved(w, moves[0], kind), moves[1..], kind);
      }
    }
  }

  lemma NobodyIsConsistent<T(!new), E(!new)>(kind: Kind<T, E>)
    ensures Consistent(Nobody(), kind)
  {
  }

  lemma Taken<T(!new), E(!new)>(w: Workers<T>, taken: T, worker: nat, work: E, kind: Kind<T, E>)
    requires Lawful(kind) && IsStored(w.files, taken, kind)
    requires worker in w.held && worker !in w.landing && kind.inLine(w.held[worker]) && kind.num(taken) == kind.num(w.held[worker]) + 1
    ensures Moved(w, Check(worker, work), kind)
         == if kind.next(w.held[worker], work) == Some(taken) then w.(held := w.held[worker := taken]) else w
  {
  }

  // Once a number is taken, a worker that looks afterwards from the item before cannot take it again,
  // whatever happens in between short of an overwrite.
  lemma TakenStaysTaken<T(!new), E(!new)>(w: Workers<T>, item: T, taken: T, between: seq<Move<E>>, worker: nat, work: E, kind: Kind<T, E>)
    requires Lawful(kind) && Consistent(w, kind) && IsStored(w.files, taken, kind)
    requires kind.inLine(item) && kind.num(taken) == kind.num(item) + 1
    requires NoneOverwritten(w, between, kind)
    ensures var later := AfterMoves(w, between, kind);
            worker in later.held && later.held[worker] == item && worker !in later.landing ==>
              Moved(later, Check(worker, work), kind)
              == if kind.next(item, work) == Some(taken) then later.(held := later.held[worker := taken]) else later
  {
    RunKeepsLine(w, between, kind);
    var later := AfterMoves(w, between, kind);
    if worker in later.held && later.held[worker] == item && worker !in later.landing {
      Taken(later, taken, worker, work, kind);
    }
  }

  // ---------------------------------------------------------------- what an overwrite does

  // Of two different items that follow the same one, no item follows both.
  ghost predicate Forks<T(!new), E(!new)>(kind: Kind<T, E>) {
    forall base, a, b, later ::
      (kind.inLine(base) && Follows(kind, base, a) && Follows(kind, base, b) && Follows(kind, a, later) && Follows(kind, b, later)) ==> a == b
  }

  lemma ReplaceLastKeepsLine<T(!new), E(!new)>(files: map<nat, T>, item: T, kind: Kind<T, E>)
    requires Line(files, kind) && MayLand(files, item, kind) && kind.num(item) == |files| - 1
    ensures Line(files[kind.num(item) := item], kind)
  {
    FilesStay(files, |files| - 1, item);
  }

  lemma NotBoth<T(!new), E(!new)>(base: T, a: T, b: T, later: T, kind: Kind<T, E>)
    requires Forks(kind) && kind.inLine(base) && a != b
    requires Follows(kind, base, a) && Follows(kind, base, b) && Follows(kind, a, later)
    ensures !Follows(kind, b, later)
  {
  }

  lemma ReplaceEarlierBreaksLine<T(!new), E(!new)>(files: map<nat, T>, item: T, kind: Kind<T, E>)
    requires Forks(kind) && Line(files, kind) && MayLand(files, item, kind)
    requires 0 < kind.num(item) < |files| - 1 && files[kind.num(item)] != item
    ensures !Line(files[kind.num(item) := item], kind)
  {
    var n := kind.num(item);
    var after := files[n := item];
    assert n - 1 in files && n + 1 in files;
    NotBoth(files[n - 1], files[n], item, files[n + 1], kind);
    assert n in after && n + 1 in after && !Follows(kind, after[n], after[n + 1]);
  }

  lemma ReplacedLine<T(!new), E(!new)>(files: map<nat, T>, item: T, kind: Kind<T, E>)
    requires Forks(kind) && Line(files, kind) && MayLand(files, item, kind)
    requires kind.num(item) in files && files[kind.num(item)] != item
    ensures Line(files[kind.num(item) := item], kind) <==> kind.num(item) == |files| - 1
  {
    if kind.num(item) == |files| - 1 {
      ReplaceLastKeepsLine(files, item, kind);
    } else {
      ReplaceEarlierBreaksLine(files, item, kind);
    }
  }

  lemma Landable<T(!new), E(!new)>(w: Workers<T>, worker: nat, kind: Kind<T, E>)
    requires Consistent(w, kind) && worker in w.landing
    ensures Line(w.files, kind) && MayLand(w.files, w.landing[worker], kind)
  {
  }

  lemma RenamedInPlace<T(!new), E(!new)>(w: Workers<T>, worker: nat, kind: Kind<T, E>)
    requires worker in w.landing
    ensures var item := w.landing[worker];
            Moved(w, Land(worker, Renamed), kind) == Workers(w.files[kind.num(item) := item], w.held[worker := item], w.landing - {worker})
  {
  }

  // An overwrite leaves one line exactly while nothing was stored on top of what it displaces; either
  // way the item of a worker that succeeded is gone.
  lemma OverwriteBreaksLine<T(!new), E(!new)>(w: Workers<T>, worker: nat, kind: Kind<T, E>)
    requires Forks(kind) && Consistent(w, kind) && Overwrites(w, Land(worker, Renamed), kind)
    ensures var n := kind.num(w.landing[worker]);
            var after := Moved(w, Land(worker, Renamed), kind).files;
            && n in w.files && after == w.files[n := w.landing[worker]] && w.landing[worker] != w.files[n]
            && (Line(after, kind) <==> n == |w.files| - 1)
  {
    Landable(w, worker, kind);
    RenamedInPlace(w, worker, kind);
    ReplacedLine(w.files, w.landing[worker], kind);
  }

  predicate AtTip<T(==), E>(w: Workers<T>, worker: nat, kind: Kind<T, E>) {
    worker in w.held && worker !in w.landing && kind.num(w.held[worker]) + 1 == |w.files|
  }

  function WithLanding<T>(w: Workers<T>, worker: nat, item: T): Workers<T> { w.(landing := w.landing[worker := item]) }

  function WithStored<T>(w: Workers<T>, worker: nat, item: T): Workers<T> {
    Workers(w.files[|w.files| := item], w.held[worker := item], w.landing - {worker})
  }

  // A worker at the tip finds its next number free, and has it once it lands undisturbed.
  lemma TipLooks<T(!new), E(!new)>(w: Workers<T>, worker: nat, work: E, item: T, kind: Kind<T, E>)
    requires Lawful(kind) && Consistent(w, kind) && AtTip(w, worker, kind) && kind.next(w.held[worker], work) == Some(item)
    ensures Moved(w, Check(worker, work), kind) == WithLanding(w, worker, item)
    ensures Consistent(WithLanding(w, worker, item), kind) && kind.num(item) == |w.files|
  {
    NextMayLand(w.files, w.held[worker], work, kind);
    assert kind.num(item) !in w.files;
    LookingKeepsLine(w, worker, item, kind);
  }

  lemma TipLands<T(!new), E(!new)>(w: Workers<T>, worker: nat, item: T, kind: Kind<T, E>)
    requires Consistent(w, kind) && worker in w.landing && w.landing[worker] == item && kind.num(item) == |w.files|
    ensures Moved(w, Land(worker, Renamed), kind) == WithStored(w, worker, item)
    ensures Consistent(WithStored(w, worker, item), kind) && AtTip(WithStored(w, worker, item), worker, kind)
    ensures |WithStored(w, worker, item).files| == |w.files| + 1
  {
    assert |w.files| !in w.files;
    LandKeepsLine(w, worker, Renamed, kind);
    FilesGrow(w.files, |w.files|, item);
  }

  lemma FirstMove<T(!new), E(!new)>(w: Workers<T>, move: Move<E>, rest: seq<Move<E>>, kind: Kind<T, E>)
    ensures AfterMoves(w, [move] + rest, kind) == AfterMoves(Moved(w, move, kind), rest, kind)
  {
    assert ([move] + rest)[1..] == rest;
  }

  lemma ThreeMoves<T(!new), E(!new)>(w: Workers<T>, a: Move<E>, b: Move<E>, c: Move<E>, rest: seq<Move<E>>, kind: Kind<T, E>)
    ensures AfterMoves(w, [a] + ([b] + ([c] + rest)), kind) == AfterMoves(Moved(Moved(Moved(w, a, kind), b, kind), c, kind), rest, kind)
  {
    FirstMove(w, a, [b] + ([c] + rest), kind);
    FirstMove(Moved(w, a, kind), b, [c] + rest, kind);
    FirstMove(Moved(Moved(w, a, kind), b, kind), c, rest, kind);
  }

  // States that moves from an empty store lead to.
  ghost predicate Reached<T(!new), E(!new)>(w: Workers<T>, kind: Kind<T, E>) {
    exists moves :: AfterMoves(Nobody(), moves, kind) == w
  }

  lemma {:induction false} MovesFurther<T(!new), E(!new)>(w: Workers<T>, moves: seq<Move<E>>, more: seq<Move<E>>, kind: Kind<T, E>)
    ensures AfterMoves(w, moves + more, kind) == AfterMoves(AfterMoves(w, moves, kind), more, kind)
    decreases |moves|
  {
    if moves == [] {
      assert moves + more == more;
    } else {
      assert (moves + more)[1..] == moves[1..] + more;
      MovesFurther(Moved(w, moves[0], kind), moves[1..], more, kind);
    }
  }

  lemma ReachesFurther<T(!new), E(!new)>(w: Workers<T>, more: seq<Move<E>>, kind: Kind<T, E>)
    requires Reached(w, kind)
    ensures Reached(AfterMoves(w, more, kind), kind)
  {
    var moves :| AfterMoves(Nobody(), moves, kind) == w;
    MovesFurther(Nobody(), moves, more, kind);
    assert AfterMoves(Nobody(), moves + more, kind) == AfterMoves(w, more, kind);
  }

  lemma ReachesNext<T(!new), E(!new)>(w: Workers<T>, move: Move<E>, kind: Kind<T, E>)
    requires Reached(w, kind)
    ensures Reached(Moved(w, move, kind), kind)
  {
    FirstMove(w, move, [], kind);
    ReachesFurther(w, [move] + [], kind);
  }

  // One worker on its own: it starts the line, and goes on by one.
  lemma StartsAlone<T(!new), E(!new)>(worker: nat, kind: Kind<T, E>)
    requires Lawful(kind)
    ensures var w := Workers(map[0 := kind.first], map[worker := kind.first], map[]);
            Reached(w, kind) && Consistent(w, kind) && AtTip(w, worker, kind)
  {
    var looked := Workers(map[], map[], map[worker := kind.first]);
    assert AfterMoves(Nobody(), [], kind) == Nobody();
    assert Moved(Nobody(), Create(worker), kind) == looked;
    ReachesNext(Nobody(), Create(worker), kind);
    LookingKeepsLine(Nobody(), worker, kind.first, kind);
    TipLands(looked, worker, kind.first, kind);
    assert looked.landing - {worker} == map[];
    ReachesNext(looked, Land(worker, Renamed), kind);
  }

  lemma GoesOnAlone<T(!new), E(!new)>(w: Workers<T>, worker: nat, work: E, next: T, kind: Kind<T, E>) returns (after: Workers<T>)
    requires Lawful(kind) && Reached(w, kind) && Consistent(w, kind) && AtTip(w, worker, kind) && kind.next(w.held[worker], work) == Some(next)
    ensures Reached(after, kind) && Consistent(after, kind) && AtTip(after, worker, kind) && after.held[worker] == next
    ensures after.landing == w.landing
  {
    StoresMore(w, worker, work, next, kind);
    ReachesNext(w, Check(worker, work), kind);
    ReachesNext(WithLanding(w, worker, next), Land(worker, Renamed), kind);
    after := WithStored(WithLanding(w, worker, next), worker, next);
    assert after.landing == w.landing;
  }

  lemma LoadsTip<T(!new), E(!new)>(w: Workers<T>, worker: nat, other: nat, kind: Kind<T, E>) returns (after: Workers<T>)
    requires Lawful(kind) && Reached(w, kind) && Consistent(w, kind) && AtTip(w, worker, kind) && other != worker && other !in w.landing
    ensures Reached(after, kind) && Consistent(after, kind) && AtTip(after, worker, kind) && AtTip(after, other, kind)
    ensures after.held[worker] == w.held[worker] == after.held[other]
  {
    var move: Move<E> := Load(other, |w.files| - 1);
    assert IsStored(w.files, w.held[worker], kind);
    LoadsStored(w, other, |w.files| - 1, kind);
    ReachesNext(w, move, kind);
    after := w.(held := w.held[other := w.held[worker]]);
  }

  lemma LoadsStored<T(!new), E(!new)>(w: Workers<T>, worker: nat, n: nat, kind: Kind<T, E>)
    requires Consistent(w, kind) && n in w.files && worker !in w.landing
    ensures var after := w.(held := w.held[worker := w.files[n]]);
            Moved(w, Load(worker, n), kind) == after && Consistent(after, kind)
  {
    OneMoreHeld(w.files, w.held, worker, w.files[n], kind);
  }

  // Two workers at the tip look before either lands.
  function ForkBegins<E>(first: nat, second: nat, one: E, other: E, rest: seq<Move<E>>): seq<Move<E>> {
    [Check(first, one)] + ([Check(second, other)] + ([Land(first, Renamed)] + rest))
  }

  lemma BothLook<T(!new), E(!new)>(w: Workers<T>, first: nat, second: nat, one: E, other: E, mine: T, theirs: T, kind: Kind<T, E>)
    requires Lawful(kind) && Consistent(w, kind) && first != second && AtTip(w, first, kind) && AtTip(w, second, kind)
    requires kind.next(w.held[first], one) == Some(mine) && kind.next(w.held[second], other) == Some(theirs)
    ensures var a := WithLanding(w, first, mine);
            var b := WithLanding(a, second, theirs);
            && Moved(w, Check(first, one), kind) == a && Moved(a, Check(second, other), kind) == b
            && Consistent(b, kind) && kind.num(mine) == kind.num(theirs) == |w.files|
  {
    TipLooks(w, first, one, mine, kind);
    TipLooks(WithLanding(w, first, mine), second, other, theirs, kind);
  }

  lemma BothLookFirstLands<T(!new), E(!new)>(w: Workers<T>, first: nat, second: nat, one: E, other: E, mine: T, theirs: T,
                                             rest: seq<Move<E>>, kind: Kind<T, E>)
    requires Lawful(kind) && Consistent(w, kind) && first != second && AtTip(w, first, kind) && AtTip(w, second, kind)
    requires kind.next(w.held[first], one) == Some(mine) && kind.next(w.held[second], other) == Some(theirs)
    ensures var after := WithStored(WithLanding(WithLanding(w, first, mine), second, theirs), first, mine);
            && AfterMoves(w, ForkBegins(first, second, one, other, rest), kind) == AfterMoves(after, rest, kind)
            && Consistent(after, kind) && AtTip(after, first, kind) && kind.num(theirs) + 1 == |after.files|
  {
    ThreeMoves(w, Check(first, one), Check(second, other), Land(first, Renamed), rest, kind);
    BothLook(w, first, second, one, other, mine, theirs, kind);
    TipLands(WithLanding(WithLanding(w, first, mine), second, theirs), first, mine, kind);
  }

  // The first worker stores one more item, and then the second lands after all.
  function ForkEnds<E>(first: nat, second: nat, more: E): seq<Move<E>> {
    [Check(first, more)] + ([Land(first, Renamed)] + ([Land(second, Renamed)] + []))
  }

  lemma StoresMore<T(!new), E(!new)>(w: Workers<T>, first: nat, more: E, next: T, kind: Kind<T, E>)
    requires Lawful(kind) && Consistent(w, kind) && AtTip(w, first, kind) && kind.next(w.held[first], more) == Some(next)
    ensures var looked := WithLanding(w, first, next);
            var after := WithStored(looked, first, next);
            && Moved(w, Check(first, more), kind) == looked && Moved(looked, Land(first, Renamed), kind) == after
            && Consistent(after, kind) && |after.files| == |w.files| + 1 && after.files == w.files[|w.files| := next]
  {
    TipLooks(w, first, more, next, kind);
    TipLands(WithLanding(w, first, next), first, next, kind);
  }

  lemma LateLand<T(!new), E(!new)>(w: Workers<T>, second: nat, item: T, kind: Kind<T, E>)
    requires Forks(kind) && Consistent(w, kind) && second in w.landing && w.landing[second] == item
    requires kind.num(item) + 2 == |w.files| && kind.num(item) in w.files && w.files[kind.num(item)] != item
    ensures var end := Moved(w, Land(second, Renamed), kind);
            !Line(end.files, kind) && end.held == w.held[second := item]
  {
    Landable(w, second, kind);
    RenamedInPlace(w, second, kind);
    ReplacedLine(w.files, item, kind);
  }

  // Where the second worker's item lands once the first has stored one more.
  lemma BeneathTip<T(!new), E(!new)>(w: Workers<T>, first: nat, second: nat, next: T, item: T, kind: Kind<T, E>)
    requires Consistent(w, kind) && AtTip(w, first, kind) && first != second
    requires second in w.landing && w.landing[second] == item && kind.num(item) + 1 == |w.files| && item != w.held[first]
    ensures var after := WithStored(WithLanding(w, first, next), first, next);
            && second in after.landing && after.landing[second] == item && after.held == w.held[first := next]
            && kind.num(item) in after.files && after.files[kind.num(item)] != item
  {
    assert IsStored(w.files, w.held[first], kind);
  }

  lemma ForkRunsOut<T(!new), E(!new)>(w: Workers<T>, first: nat, second: nat, more: E, next: T, item: T, kind: Kind<T, E>)
    requires Lawful(kind) && Forks(kind) && Consistent(w, kind) && first != second
    requires AtTip(w, first, kind) && kind.next(w.held[first], more) == Some(next)
    requires second in w.landing && w.landing[second] == item && kind.num(item) + 1 == |w.files| && item != w.held[first]
    ensures var end := Moved(WithStored(WithLanding(w, first, next), first, next), Land(second, Renamed), kind);
            && AfterMoves(w, ForkEnds(first, second, more), kind) == end
            && !Line(end.files, kind) && end.held == w.held[first := next][second := item]
  {
    var after := WithStored(WithLanding(w, first, next), first, next);
    EndsSo(w, first, second, more, next, kind);
    StoresMore(w, first, more, next, kind);
    BeneathTip(w, first, second, next, item, kind);
    LateLand(after, second, item, kind);
  }

  lemma EndsSo<T(!new), E(!new)>(w: Workers<T>, first: nat, second: nat, more: E, next: T, kind: Kind<T, E>)
    requires Lawful(kind) && Consistent(w, kind) && AtTip(w, first, kind) && kind.next(w.held[first], more) == Some(next)
    ensures AfterMoves(w, ForkEnds(first, second, more), kind)
         == Moved(WithStored(WithLanding(w, first, next), first, next), Land(second, Renamed), kind)
  {
    ThreeMoves(w, Check(first, more), Land(first, Renamed), Land(second, Renamed), [], kind);
    StoresMore(w, first, more, next, kind);
  }

  lemma FirstLanded<T>(w: Workers<T>, first: nat, second: nat, mine: T, theirs: T)
    requires first != second
    ensures var after := WithStored(WithLanding(WithLanding(w, first, mine), second, theirs), first, mine);
            second in after.landing && after.landing[second] == theirs && after.held == w.held[first := mine] && after.held[first] == mine
  {
  }

  // Both workers succeed under the same number, and once the first has stored another item before the
  // second lands, the files are no longer one line.
  lemma ForkBreaksLine<T(!new), E(!new)>(w: Workers<T>, first: nat, second: nat, one: E, other: E, more: E, mine: T, theirs: T, next: T,
                                         kind: Kind<T, E>)
    requires Lawful(kind) && Forks(kind) && Consistent(w, kind) && first != second && AtTip(w, first, kind) && AtTip(w, second, kind)
    requires kind.next(w.held[first], one) == Some(mine) && kind.next(w.held[second], other) == Some(theirs) && mine != theirs
    requires kind.next(mine, more) == Some(next)
    ensures var end := AfterMoves(w, ForkBegins(first, second, one, other, ForkEnds(first, second, more)), kind);
            !Line(end.files, kind) && end.held == w.held[first := mine][first := next][second := theirs]
  {
    BothLookFirstLands(w, first, second, one, other, mine, theirs, ForkEnds(first, second, more), kind);
    FirstLanded(w, first, second, mine, theirs);
    ForkRunsOut(WithStored(WithLanding(WithLanding(w, first, mine), second, theirs), first, mine), first, second, more, next, theirs, kind);
  }
}
