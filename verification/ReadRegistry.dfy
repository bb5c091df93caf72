/** The read-before-write registry behind the file tools (internal/fsorgan/readstate.go,
    read.go, write.go, edit.go). */
module ReadRegistry {
  import opened Text
  import opened NumberedRead
  import opened TextEdit

  const MAX_READ_SIZE := 262144

  /** Modification times are milliseconds and need not grow. */
  datatype File = File(content: string, mtime: int)
  datatype ReadMark = ReadMark(mtime: int, full: bool)

  datatype Refusal = NotRead | PartialOnly | ModifiedSince

  datatype Error =
    | NotFound | TooLarge | AlreadyExists | Refused(why: Refusal) | NotEmpty | NoMatch | TooMany(count: nat) | NoChange

  datatype Result<T> = Ok(value: T) | Err(error: Error)

  datatype Listing = Listing(content: string, warning: bool, startLine: int, lineCount: nat, totalLines: nat)

  // ------------------------------------------------------------------ history

  /** The lines a whole read shows: without a byte-order mark and final carriage returns,
      and each cut at the cap. */
  function WholeLines(content: string): seq<string> { Selected(Split(WithoutBom(content)), 0, -1) }

  /** What happened to the files: the agent's whole and ranged reads with the lines shown,
      its writes (`marked` when the state after the write could be recorded), and what
      others did. */
  datatype Event =
    | SawWhole(path: string, shown: seq<string>, time: int)
    | SawPart(path: string, time: int)
    | Put(path: string, content: string, time: int, marked: bool)
    | Changed(path: string, content: string, time: int)
    | Removed(path: string)

  datatype Change = Change(time: int, own: bool)

  /** What the registry can know of a file: nothing, a part, or the whole at `mark`, with
      the last change since then. */
  datatype Sight = Never | Partly | Whole(mark: int, change: Option<Change>)

  function SightAfter(e: Event, path: string, before: Sight): Sight {
    if e.path != path then before
    else
      match e
      case SawWhole(_, _, time) => Whole(time, None)
      case SawPart(_, time) => if before.Whole? && time <= before.mark then before else Partly
      case Put(_, _, time, marked) =>
        if marked then Whole(time, None)
        else if before.Whole? then before.(change := Some(Change(time, true))) else before
      case Changed(_, _, time) => if before.Whole? then before.(change := Some(Change(time, false))) else before
      case Removed(_) => before
  }

  function SightOf(history: seq<Event>, path: string): Sight {
    if history == [] then Never
    else SightAfter(history[|history| - 1], path, SightOf(history[..|history| - 1], path))
  }

  /** The lines a whole read showed, or the content the agent wrote itself. */
  datatype Knowledge = Nothing | Shown(lines: seq<string>) | Wrote(content: string)

  function KnownAfter(e: Event, path: string, before: Knowledge): Knowledge {
    if e.path != path then before
    else if e.SawWhole? then Shown(e.shown)
    else if e.Put? then Wrote(e.content)
    else before
  }

  /** What the agent last read whole or wrote. */
  function Known(history: seq<Event>, path: string): Knowledge {
    if history == [] then Nothing
    else KnownAfter(history[|history| - 1], path, Known(history[..|history| - 1], path))
  }

  /** What is known is true of this content. */
  predicate Describes(known: Knowledge, content: string) {
    match known
    case Nothing => false
    case Shown(lines) => lines == WholeLines(content)
    case Wrote(written) => written == content
  }

  function UnseenAfter(e: Event, path: string, before: bool): bool {
    if e.path != path || e.SawPart? || e.Removed? then before else e.Changed?
  }

  /** The file holds what somebody else put there and the agent has not read since. */
  function Unseen(history: seq<Event>, path: string): bool {
    if history == [] then false
    else UnseenAfter(history[|history| - 1], path, Unseen(history[..|history| - 1], path))
  }

  /** The registry lets the agent write: nothing changed since the mark, or the last
      change bears no later time. */
  predicate Permits(history: seq<Event>, path: string) {
    var s := SightOf(history, path);
    s.Whole? && (s.change.None? || s.change.value.time <= s.mark)
  }

  /** Somebody else changed the file after the mark, at a time that is not after it. */
  predicate Missed(history: seq<Event>, path: string) {
    var s := SightOf(history, path);
    s.Whole? && s.change.Some? && !s.change.value.own && s.change.value.time <= s.mark
  }

  lemma {:induction false} HistoryAppend(history: seq<Event>, e: Event, path: string)
    ensures SightOf(history + [e], path) == SightAfter(e, path, SightOf(history, path))
    ensures Known(history + [e], path) == KnownAfter(e, path, Known(history, path))
    ensures Unseen(history + [e], path) == UnseenAfter(e, path, Unseen(history, path))
  {
    assert (history + [e])[..|history|] == history;
  }

  /** The registry permits overwriting what the agent has not seen exactly when it missed
      an outside change. */
  lemma {:induction false} MissedExactly(history: seq<Event>, path: string)
    ensures Permits(history, path) && Unseen(history, path) <==> Missed(history, path)
  {
    SightOrigin(history, path);
  }

  lemma {:induction false} SightOrigin(history: seq<Event>, path: string)
    ensures var s := SightOf(history, path);
      s.Whole? ==> (Unseen(history, path) <==> s.change.Some? && !s.change.value.own)
  {
    if history != [] { SightOrigin(history[..|history| - 1], path); }
  }

  /** Every outside change bears a later time than the mark it finds. */
  predicate LaterChanges(history: seq<Event>) {
    history != [] ==>
      var before, e := history[..|history| - 1], history[|history| - 1];
      && LaterChanges(before)
      && (e.Changed? && SightOf(before, e.path).Whole? ==> e.time > SightOf(before, e.path).mark)
  }

  /** Then none is ever missed. */
  lemma {:induction false} LaterNeverMissed(history: seq<Event>, path: string)
    requires LaterChanges(history)
    ensures !Missed(history, path)
  {
    if history != [] { LaterNeverMissed(history[..|history| - 1], path); }
  }

  // -------------------------------------------------------------- the registry

  datatype State = State(files: map<string, File>, marks: map<string, ReadMark>)

  /** `checkWritable`, for the file's current modification time. */
  function Check(s: State, path: string): Option<Refusal>
    requires path in s.files
  {
    if path !in s.marks then Some(NotRead)
    else if !s.marks[path].full then Some(PartialOnly)
    else if s.files[path].mtime > s.marks[path].mtime then Some(ModifiedSince)
    else None
  }

  /** `markRead`: a ranged read leaves a whole-file mark alone while it is current. */
  function Marked(marks: map<string, ReadMark>, path: string, mtime: int, full: bool): map<string, ReadMark> {
    if !full && path in marks && marks[path].full && mtime <= marks[path].mtime then marks
    else marks[path := ReadMark(mtime, full)]
  }

  /** For one path: the mark is what the history says, the file's time is that of its last
      change, and what the agent has seen it knows. */
  ghost predicate Tracks(s: State, history: seq<Event>, path: string) {
    var sight := SightOf(history, path);
    && (sight.Never? <==> path !in s.marks)
    && (sight.Partly? ==> !s.marks[path].full)
    && (sight.Whole? ==> s.marks[path] == ReadMark(sight.mark, true))
    && (path in s.files && sight.Whole? ==>
          && s.files[path].mtime == (if sight.change.Some? then sight.change.value.time else sight.mark)
          && (Unseen(history, path) || Describes(Known(history, path), s.files[path].content)))
  }

  ghost predicate Consistent(s: State, history: seq<Event>) { forall path :: Tracks(s, history, path) }

  lemma {:induction false} CheckExactly(s: State, history: seq<Event>, path: string)
    requires Consistent(s, history) && path in s.files
    ensures Check(s, path) == None <==> Permits(history, path)
  {
    assert Tracks(s, history, path);
  }

  // ------------------------------------------------------------ the operations

  datatype Op =
    | ReadFile(path: string, full: bool)
    | WriteFile(path: string, content: string, overwrite: bool, time: int, marked: bool)
    | EditFile(path: string, oldText: string, newText: string, all: bool, time: int, marked: bool)
    | ChangeFile(path: string, content: string, time: int)
    | RemoveFile(path: string)

  datatype World = World(state: State, history: seq<Event>)

  function Read(s: State, path: string, full: bool): State
    requires path in s.files
  {
    s.(marks := Marked(s.marks, path, s.files[path].mtime, full))
  }

  function Store(s: State, path: string, content: string, time: int, marked: bool): State {
    State(s.files[path := File(content, time)], if marked then Marked(s.marks, path, time, true) else s.marks)
  }

  function Stored(w: World, path: string, content: string, time: int, marked: bool): World {
    World(Store(w.state, path, content, time, marked), w.history + [Put(path, content, time, marked)])
  }

  /** A write goes through to a new path, or over a file on purpose and permitted. */
  predicate Writes(s: State, path: string, overwrite: bool) {
    path in s.files ==> overwrite && Check(s, path) == None
  }

  /** The text after an edit, None when it is refused. */
  ghost function EditedText(s: State, path: string, oldText: string, newText: string, all: bool): Option<string> {
    if oldText == newText then None
    else if path !in s.files then (if oldText == "" then Some(newText) else None)
    else if Check(s, path) != None then None
    else
      var text := UnixLines(s.files[path].content);
      if oldText == "" then (if Blank(text) then Some(newText) else None)
      else
        var r := EditResult(text, oldText, newText, all);
        if r.Edited? then Some(r.text) else None
  }

  ghost function Act(w: World, op: Op): World {
    var s := w.state;
    match op
    case ReadFile(path, full) =>
      if path !in s.files then w
      else
        var f := s.files[path];
        var e := if full then SawWhole(path, WholeLines(f.content), f.mtime) else SawPart(path, f.mtime);
        World(Read(s, path, full), w.history + [e])
    case WriteFile(path, content, overwrite, time, marked) =>
      if Writes(s, path, overwrite) then Stored(w, path, content, time, marked) else w
    case EditFile(path, oldText, newText, all, time, marked) =>
      var text := EditedText(s, path, oldText, newText, all);
      if text.Some? then Stored(w, path, text.value, time, marked) else w
    case ChangeFile(path, content, time) =>
      World(Store(s, path, content, time, false), w.history + [Changed(path, content, time)])
    case RemoveFile(path) =>
      World(s.(files := s.files - {path}), w.history + [Removed(path)])
  }

  ghost function RunOps(files: map<string, File>, ops: seq<Op>): World {
    if ops == [] then World(State(files, map[]), [])
    else Act(RunOps(files, ops[..|ops| - 1]), ops[|ops| - 1])
  }

  lemma {:induction false} StoredConsistent(w: World, path: string, content: string, time: int, marked: bool)
    requires Consistent(w.state, w.history)
    ensures var w' := Stored(w, path, content, time, marked); Consistent(w'.state, w'.history)
  {
    var e := Put(path, content, time, marked);
    forall p ensures Tracks(Store(w.state, path, content, time, marked), w.history + [e], p) {
      assert Tracks(w.state, w.history, p);
      HistoryAppend(w.history, e, p);
    }
  }

  lemma {:induction false} ReadConsistent(w: World, path: string, full: bool)
    requires Consistent(w.state, w.history) && path in w.state.files
    ensures var w' := Act(w, ReadFile(path, full)); Consistent(w'.state, w'.history)
  {
    var f := w.state.files[path];
    var e := if full then SawWhole(path, WholeLines(f.content), f.mtime) else SawPart(path, f.mtime);
    forall p ensures Tracks(Read(w.state, path, full), w.history + [e], p) {
      assert Tracks(w.state, w.history, p);
      HistoryAppend(w.history, e, p);
    }
  }

  lemma {:induction false} OutsideConsistent(w: World, op: Op)
    requires Consistent(w.state, w.history) && (op.ChangeFile? || op.RemoveFile?)
    ensures Consistent(Act(w, op).state, Act(w, op).history)
  {
    var w' := Act(w, op);
    var e := w'.history[|w.history|];
    forall p ensures Tracks(w'.state, w'.history, p) {
      assert Tracks(w.state, w.history, p);
      HistoryAppend(w.history, e, p);
    }
  }

  /** Every operation, refused or not, by the agent or by others, keeps marks and history
      together. */
  lemma {:induction false} ActConsistent(w: World, op: Op)
    requires Consistent(w.state, w.history)
    ensures Consistent(Act(w, op).state, Act(w, op).history)
  {
    match op {
      case ReadFile(path, full) => if path in w.state.files { ReadConsistent(w, path, full); }
      case WriteFile(path, content, overwrite, time, marked) => StoredConsistent(w, path, content, time, marked);
      case EditFile(path, oldText, newText, all, time, marked) =>
        var text := EditedText(w.state, path, oldText, newText, all);
        if text.Some? { StoredConsistent(w, path, text.value, time, marked); }
      case _ => OutsideConsistent(w, op);
    }
  }

  lemma {:induction false} RunConsistent(files: map<string, File>, ops: seq<Op>)
    ensures Consistent(RunOps(files, ops).state, RunOps(files, ops).history)
  {
    if ops == [] {
      forall p ensures Tracks(State(files, map[]), [], p) {}
    } else {
      RunConsistent(files, ops[..|ops| - 1]);
      ActConsistent(RunOps(files, ops[..|ops| - 1]), ops[|ops| - 1]);
    }
  }

  /** After any interleaving of operations, the agent may write an existing file exactly
      when the history permits it; and what it then overwrites has the lines a whole read
      showed it, or is what it wrote itself, unless an outside change was missed. */
  lemma {:induction false} NoBlindOverwrite(files: map<string, File>, ops: seq<Op>, path: string)
    ensures var w := RunOps(files, ops);
      path in w.state.files ==>
        && (Check(w.state, path) == None <==> Permits(w.history, path))
        && (Check(w.state, path) == None && !Missed(w.history, path) ==>
              Describes(Known(w.history, path), w.state.files[path].content))
        && (Missed(w.history, path) ==> Check(w.state, path) == None && Unseen(w.history, path))
  {
    var w := RunOps(files, ops);
    RunConsistent(files, ops);
    MissedExactly(w.history, path);
    if path in w.state.files {
      CheckExactly(w.state, w.history, path);
      assert Tracks(w.state, w.history, path);
    }
  }

  /** A read never revokes the right to write any file: a whole read grants it for its
      file, and a ranged read changes nothing. */
  lemma {:induction false} ReadRights(s: State, path: string, full: bool, p: string)
    requires path in s.files && p in s.files
    ensures Check(Read(s, path, full), p) == None <==> (full && p == path) || Check(s, p) == None
  {}

  /** After any operations one more read keeps all rights to write, by what happened. */
  lemma {:induction false} ReadKeepsRights(files: map<string, File>, ops: seq<Op>, path: string, full: bool, p: string)
    requires p in RunOps(files, ops).state.files
    ensures var w, w' := RunOps(files, ops), RunOps(files, ops + [ReadFile(path, full)]);
      && w'.state.files == w.state.files
      && (Permits(w'.history, p) <==>
            Permits(w.history, p) || (full && p == path && path in w.state.files))
  {
    var w, w' := RunOps(files, ops), RunOps(files, ops + [ReadFile(path, full)]);
    assert (ops + [ReadFile(path, full)])[..|ops|] == ops;
    RunConsistent(files, ops);
    RunConsistent(files, ops + [ReadFile(path, full)]);
    CheckExactly(w.state, w.history, p);
    CheckExactly(w'.state, w'.history, p);
    if path in w.state.files { ReadRights(w.state, path, full, p); }
  }

  /** `strings.ReplaceAll(s, "\r\n", "\n")`. */
  function UnixLines(s: string): string {
    if |s| >= 2 && s[0] == '\r' && s[1] == '\n' then "\n" + UnixLines(s[2..])
    else if s == [] then []
    else [s[0]] + UnixLines(s[1..])
  }

  lemma {:induction false} UnixLinesReplace(s: string)
    ensures UnixLines(s) == ReplaceAll(s, "\r\n", "\n")
  {
    if |s| >= 2 && s[0] == '\r' && s[1] == '\n' {
      assert "\r\n" <= s;
      UnixLinesReplace(s[2..]);
    } else if s != [] {
      UnixLinesReplace(s[1..]);
    }
  }

  /** The text meant by an edit: as given, or without its line numbers. */
  predicate Means(oldText: string, text: string) { text == oldText || Stripped(oldText) == Some(text) }

  ghost predicate ReplacedAll(content: string, result: string, text: string, newText: string) {
    exists pieces :: pieces != [] && content == JoinBy(pieces, text) && result == JoinBy(pieces, newText)
      && forall k :: 0 <= k < |pieces| ==> Free(pieces[k], text)
  }

  ghost predicate ReplacedOnce(content: string, result: string, text: string, newText: string) {
    exists i: nat, j: nat :: ReplacedOne(content, result, text, newText, i, j)
  }

  /** What an edit puts in place of an existing text: the new text when that one was blank
      and nothing was asked for, else every occurrence replaced, or one stretch. */
  ghost predicate EditedTo(content: string, result: string, oldText: string, newText: string, all: bool) {
    if oldText == "" then Blank(content) && result == newText
    else if all then exists text :: Means(oldText, text) && ReplacedAll(content, result, text, newText)
    else exists text :: Means(oldText, text) && ReplacedOnce(content, result, text, newText)
  }

  lemma {:induction false} AllEditTo(content: string, oldText: string, newText: string) returns (text: string)
    requires oldText != "" && EditResult(content, oldText, newText, true).Edited?
    ensures Means(oldText, text)
    ensures ReplacedAll(content, EditResult(content, oldText, newText, true).text, text, newText)
  {
    var pieces;
    text, pieces := AllEdit(content, oldText, newText);
  }

  lemma {:induction false} OneEditTo(content: string, oldText: string, newText: string) returns (text: string)
    requires oldText != "" && EditResult(content, oldText, newText, false).Edited?
    ensures Means(oldText, text)
    ensures ReplacedOnce(content, EditResult(content, oldText, newText, false).text, text, newText)
  {
    var i, j;
    text, i, j := SingleEdit(content, oldText, newText);
  }

  lemma {:induction false} EditTextTo(content: string, oldText: string, newText: string, all: bool, result: string)
    requires oldText != "" && EditResult(content, oldText, newText, all).Edited?
    requires result == EditResult(content, oldText, newText, all).text
    ensures EditedTo(content, result, oldText, newText, all)
  {
    if all {
      var text := AllEditTo(content, oldText, newText);
    } else {
      var text := OneEditTo(content, oldText, newText);
    }
  }

  /** The files as the agent's tools and everybody else change them. */
  class Provider {
    var state: State
    ghost var history: seq<Event>

    constructor (files: map<string, File>)
      ensures Valid() && state == State(files, map[]) && history == []
    {
      state, history := State(files, map[]), [];
      new;
      RunConsistent(files, []);
    }

    ghost predicate Valid() reads this { Consistent(state, history) }

    ghost function View(): World reads this { World(state, history) }

    function CheckWritable(path: string): Option<Refusal>
      reads this
      requires path in state.files
    {
      Check(state, path)
    }

    method MarkRead(path: string, full: bool)
      requires Valid() && path in state.files
      modifies this
      ensures Valid() && View() == Act(old(View()), ReadFile(path, full))
    {
      ReadConsistent(View(), path, full);
      var f := state.files[path];
      history := history + [if full then SawWhole(path, WholeLines(f.content), f.mtime) else SawPart(path, f.mtime)];
      if !full && path in state.marks && state.marks[path].full && f.mtime <= state.marks[path].mtime { return; }
      state := state.(marks := state.marks[path := ReadMark(f.mtime, full)]);
    }

    /** `handleRead`. */
    method HandleRead(path: string, offset: int, limit: int) returns (r: Result<Listing>)
      requires Valid()
      modifies this
      ensures Valid() && state.files == old(state.files)
      ensures r.Err? <==> path !in state.files || (limit <= 0 && |state.files[path].content| > MAX_READ_SIZE)
      ensures r.Err? ==> View() == old(View())
      ensures r.Ok? ==> View() == Act(old(View()), ReadFile(path, offset <= 1 && limit <= 0))
      ensures r.Ok? ==> r.value == ListingOf(state.files[path].content, offset, limit)
    {
      if path !in state.files { return Err(NotFound); }
      if limit <= 0 && |state.files[path].content| > MAX_READ_SIZE { return Err(TooLarge); }
      var listing := ListLines(state.files[path].content, offset, limit);
      MarkRead(path, offset <= 1 && limit <= 0);
      r := Ok(listing);
    }

    method PutFile(path: string, content: string, time: int, marked: bool)
      requires Valid()
      modifies this
      ensures Valid() && View() == Stored(old(View()), path, content, time, marked)
    {
      StoredConsistent(View(), path, content, time, marked);
      history := history + [Put(path, content, time, marked)];
      state := State(state.files[path := File(content, time)], state.marks);
      if marked { state := state.(marks := state.marks[path := ReadMark(time, true)]); }
    }

    /** `handleWrite`: an existing file is replaced only on purpose and while the registry
        permits it; what is replaced is then known, unless an outside change was missed. */
    method HandleWrite(path: string, content: string, overwrite: bool, time: int, marked: bool)
      returns (r: Result<bool>)
      requires Valid()
      modifies this
      ensures Valid() && View() == Act(old(View()), WriteFile(path, content, overwrite, time, marked))
      ensures r.Ok? <==> path !in old(state.files) || (overwrite && Permits(old(history), path))
      ensures r.Ok? ==> state.files == old(state.files)[path := File(content, time)]
      ensures r == Err(AlreadyExists) <==> path in old(state.files) && !overwrite
      ensures r.Ok? ==> r.value == (path !in old(state.files))
      ensures r.Ok? && path in old(state.files) ==>
        Missed(old(history), path) || Describes(Known(old(history), path), old(state.files)[path].content)
    {
      MissedExactly(history, path);
      assert Tracks(state, history, path);
      var existing := path in state.files;
      if existing {
        if !overwrite { return Err(AlreadyExists); }
        var why := CheckWritable(path);
        if why.Some? { return Err(Refused(why.value)); }
      }
      PutFile(path, content, time, marked);
      r := Ok(!existing);
    }

    /** `handleEdit`. */
    method HandleEdit(path: string, oldText: string, newText: string, all: bool, time: int, marked: bool)
      returns (r: Result<bool>)
      requires Valid()
      modifies this
      ensures Valid() && View() == Act(old(View()), EditFile(path, oldText, newText, all, time, marked))
      ensures r.Err? ==> View() == old(View())
      ensures r == Err(NoChange) <==> oldText == newText
      ensures r == Err(NotFound) <==> oldText != newText && path !in old(state.files) && oldText != ""
      ensures path in old(state.files) && oldText != newText ==>
        (forall why :: r == Err(Refused(why)) <==> Check(old(state), path) == Some(why))
      ensures r.Ok? ==> r.value == (path !in old(state.files)) && path in state.files
      ensures r.Ok? ==> state.files == old(state.files)[path := File(state.files[path].content, time)]
      ensures r.Ok? && path !in old(state.files) ==> oldText == "" && state.files[path].content == newText
      ensures r.Ok? && path in old(state.files) ==>
        && Permits(old(history), path)
        && (Missed(old(history), path) || Describes(Known(old(history), path), old(state.files)[path].content))
        && EditedTo(UnixLines(old(state.files)[path].content), state.files[path].content, oldText, newText, all)
    {
      MissedExactly(history, path);
      assert Tracks(state, history, path);
      if oldText == newText { return Err(NoChange); }
      if path !in state.files {
        if oldText != "" { return Err(NotFound); }
        PutFile(path, newText, time, marked);
        return Ok(true);
      }
      var why := CheckWritable(path);
      if why.Some? { return Err(Refused(why.value)); }
      r := EditExisting(path, oldText, newText, all, time, marked);
    }

    /** The edit of a file that may be written. */
    method EditExisting(path: string, oldText: string, newText: string, all: bool, time: int, marked: bool)
      returns (r: Result<bool>)
      requires Valid() && path in state.files && oldText != newText && Check(state, path) == None
      modifies this
      ensures Valid() && View() == Act(old(View()), EditFile(path, oldText, newText, all, time, marked))
      ensures r.Err? ==> View() == old(View()) && (r.error == NotEmpty || r.error == NoMatch || r.error.TooMany?)
      ensures r.Ok? ==> !r.value && path in state.files
      ensures r.Ok? ==>
        EditedTo(UnixLines(old(state.files)[path].content), state.files[path].content, oldText, newText, all)
      ensures r == Err(NotEmpty) <==> oldText == "" && !Blank(UnixLines(old(state.files)[path].content))
      ensures oldText != "" ==>
        var out := EditResult(UnixLines(old(state.files)[path].content), oldText, newText, all);
        && (r.Ok? <==> out.Edited?) && (r == Err(NoMatch) <==> out.Missing?)
        && forall n :: r == Err(TooMany(n)) <==> out == Ambiguous(n)
    {
      var content := UnixLines(state.files[path].content);
      if oldText == "" {
        if !Blank(content) { return Err(NotEmpty); }
        PutFile(path, newText, time, marked);
        return Ok(false);
      }
      r := ReplaceIn(path, content, oldText, newText, all, time, marked);
    }

    method ReplaceIn(path: string, content: string, oldText: string, newText: string, all: bool, time: int,
                     marked: bool)
      returns (r: Result<bool>)
      requires Valid() && path in state.files && oldText != newText && Check(state, path) == None
      requires oldText != "" && content == UnixLines(state.files[path].content)
      modifies this
      ensures Valid() && View() == Act(old(View()), EditFile(path, oldText, newText, all, time, marked))
      ensures r.Err? ==> View() == old(View()) && (r.error == NoMatch || r.error.TooMany?)
      ensures r.Ok? ==> !r.value && path in state.files
      ensures r.Ok? ==> EditedTo(content, state.files[path].content, oldText, newText, all)
      ensures var out := EditResult(content, oldText, newText, all);
        && (r.Ok? <==> out.Edited?) && (r == Err(NoMatch) <==> out.Missing?)
        && forall n :: r == Err(TooMany(n)) <==> out == Ambiguous(n)
    {
      var out := EditText(content, oldText, newText, all);
      r := Verdict(out);
      if out.Edited? {
        EditTextTo(content, oldText, newText, all, out.text);
        PutFile(path, out.text, time, marked);
      }
    }

    /** The handler's answer to an edit of a file. */
    method Verdict(out: Outcome) returns (r: Result<bool>)
      ensures (r.Ok? <==> out.Edited?) && (r.Ok? ==> !r.value)
      ensures r.Err? ==> r.error == NoMatch || r.error.TooMany?
      ensures (r == Err(NoMatch) <==> out.Missing?) && forall n :: r == Err(TooMany(n)) <==> out == Ambiguous(n)
    {
      match out {
        case Missing => r := Err(NoMatch);
        case Ambiguous(count) => r := Err(TooMany(count));
        case Edited(_, _) => r := Ok(false);
      }
    }

    /** Another process writes a file, at whatever time. */
    method Overwritten(path: string, content: string, time: int)
      requires Valid()
      modifies this
      ensures Valid() && View() == Act(old(View()), ChangeFile(path, content, time))
    {
      OutsideConsistent(View(), ChangeFile(path, content, time));
      history := history + [Changed(path, content, time)];
      state := State(state.files[path := File(content, time)], state.marks);
    }

    /** Another process, or the agent, removes a file. */
    method Remove(path: string)
      requires Valid()
      modifies this
      ensures Valid() && View() == Act(old(View()), RemoveFile(path))
    {
      OutsideConsistent(View(), RemoveFile(path));
      history := history + [Removed(path)];
      state := state.(files := state.files - {path});
    }
  }

  method ListLines(content: string, offset: int, limit: int) returns (r: Listing)
    ensures r == ListingOf(content, offset, limit)
  {
    var start := if offset < 1 then 1 else offset;
    var end := if limit <= 0 then -1 else start - 1 + limit;
    var selected, total := SelectLines(content, start - 1, end);
    if Join(selected) == "" { return Listing("", true, start, 0, total); }
    var text := Render(selected, start);
    r := Listing(text, false, start, |selected|, total);
  }

  /** What a read answers: the selected lines numbered from the offset, or a warning when
      there is nothing to show, with the number of lines shown and in the file. */
  function ListingOf(content: string, offset: int, limit: int): Listing {
    var start := if offset < 1 then 1 else offset;
    var lines := Split(WithoutBom(content));
    var shown := Selected(lines, start - 1, if limit <= 0 then -1 else start - 1 + limit);
    if Join(shown) == "" then Listing("", true, start, 0, |lines|)
    else Listing(Join(Numbered(shown, start)), false, start, |shown|, |lines|)
  }
}
