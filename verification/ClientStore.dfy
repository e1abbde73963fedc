/** What the client knows of every game, as one log per game and reporter. */
module ClientStore {
  import opened Wrappers
  import opened Text
  import opened OrderedMap
  import opened Game

  /** What the client takes out of one MESSAGE. */
  datatype Note = Note(game: string, user: string, time: string, event: string, updates: string, description: string)

  datatype Report = Report(user: string, stats: Stats)

  type Store = map<string, seq<Report>>

  /** The place of a reporter in a game's list; the list's length if there is none. */
  function Place(l: seq<Report>, user: string): (i: nat)
    ensures i <= |l| && (i < |l| ==> l[i].user == user)
    ensures forall j :: 0 <= j < i ==> l[j].user != user
  {
    if l == [] || l[0].user == user then 0 else 1 + Place(l[1..], user)
  }

  function StatsOf(l: seq<Report>, user: string): Stats {
    if Place(l, user) < |l| then l[Place(l, user)].stats else NoStats
  }

  function SetReport(l: seq<Report>, r: Report): seq<Report> {
    if Place(l, r.user) < |l| then l[Place(l, r.user) := r] else l + [r]
  }

  function Updates(g: Stats, n: Note): Option<Stats> {
    Updated(g, n.time, n.event, n.updates, n.description)
  }

  /** One MESSAGE recorded, or None where the update throws and the client ends. */
  function Record(s: Store, n: Note): Option<Store> {
    var game := Trim(n.game);
    match Updates(StatsOf(At(s, game), n.user), n)
    case None => None
    case Some(g) => Some(s[game := SetReport(At(s, game), Report(n.user, g))])
  }

  /** What an update that throws has recorded by then: the report, if its reporter's object is in a list. */
  function RecordFailed(s: Store, n: Note): Store {
    var game := Trim(n.game);
    var l := if game in s then s[game] else [Report(n.user, NoStats)];
    var g := StatsOf(l, n.user);
    if Place(l, n.user) == |l| then s
    else
      s[game := SetReport(l, Report(n.user, g.(updates := g.updates + [ReportEntry(n.time, n.event, n.description)])))]
  }

  function Replay(s: Store, notes: seq<Note>): Option<Store>
    decreases notes
  {
    if notes == [] then Some(s)
    else match Record(s, notes[0]) case None => None case Some(s') => Replay(s', notes[1..])
  }

  function Lookup(s: Store, game: string, user: string): Option<Stats> {
    var l := At(s, game);
    if Place(l, user) < |l| then Some(l[Place(l, user)].stats) else None
  }

  predicate About(n: Note, game: string, user: string) {
    Trim(n.game) == game && n.user == user
  }

  /** The messages about one game from one reporter, in arrival order. */
  function Log(notes: seq<Note>, game: string, user: string): seq<Note> {
    if notes == [] then []
    else (if About(notes[0], game, user) then [notes[0]] else []) + Log(notes[1..], game, user)
  }

  /** What a log amounts to, starting from g. */
  function Fold(g: Option<Stats>, log: seq<Note>): Option<Stats>
    requires forall n :: n in log ==> !Free(n.updates, TEAM_B)
    decreases log
  {
    if log == [] then g
    else Fold(Updates(if g == None then NoStats else g.value, log[0]), log[1..])
  }

  ghost predicate Distinct(s: Store) {
    forall game :: game in s ==> forall i, j :: 0 <= i < j < |s[game]| ==> s[game][i].user != s[game][j].user
  }

  lemma PlaceIs(l: seq<Report>, user: string, i: nat)
    requires i < |l| && l[i].user == user && forall j :: 0 <= j < i ==> l[j].user != user
    ensures Place(l, user) == i
  {
  }

  lemma SetFinds(l: seq<Report>, r: Report, user: string)
    ensures var l' := SetReport(l, r);
            (if Place(l', user) < |l'| then Some(l'[Place(l', user)].stats) else None)
            == if user == r.user then Some(r.stats)
               else if Place(l, user) < |l| then Some(l[Place(l, user)].stats) else None
  {
    var l' := SetReport(l, r);
    if user == r.user {
      PlaceIs(l', user, Place(l, user));
    } else if Place(l, user) < |l| {
      PlaceIs(l', user, Place(l, user));
    }
  }

  /** A MESSAGE changes what is known for its own game and reporter only. */
  lemma RecordIsLocal(s: Store, n: Note, game: string, user: string)
    requires Record(s, n).Some?
    ensures Lookup(Record(s, n).value, game, user)
            == if About(n, game, user)
               then Updates(if Lookup(s, game, user) == None then NoStats else Lookup(s, game, user).value, n)
               else Lookup(s, game, user)
  {
    hide Updates;
    var own := Trim(n.game);
    var g := Updates(StatsOf(At(s, own), n.user), n).value;
    SetFinds(At(s, own), Report(n.user, g), user);
  }

  lemma RecordThrows(s: Store, n: Note)
    ensures Record(s, n) == None <==> Free(n.updates, TEAM_B)
  {
    hide ReadLines;
  }

  /** The client outlives a sequence of MESSAGEs exactly if each carried the second team's marker. */
  lemma {:induction false} AliveExactly(s: Store, notes: seq<Note>)
    ensures Replay(s, notes).Some? <==> forall n :: n in notes ==> !Free(n.updates, TEAM_B)
    decreases notes
  {
    hide Record;
    hide Free;
    if notes == [] {
    } else {
      RecordThrows(s, notes[0]);
      assert notes == [notes[0]] + notes[1..];
      if Record(s, notes[0]).Some? {
        AliveExactly(Record(s, notes[0]).value, notes[1..]);
      }
    }
  }

  lemma {:induction false} LogOf(notes: seq<Note>, game: string, user: string)
    ensures forall n :: n in Log(notes, game, user) ==> n in notes && About(n, game, user)
  {
    if notes == [] {
    } else {
      LogOf(notes[1..], game, user);
    }
  }

  /**
   After any sequence of MESSAGEs the client knows of each game and reporter exactly what folding
   that pair's messages, in arrival order, gives.
   */
  lemma {:induction false} StoreIsLogs(s: Store, notes: seq<Note>, game: string, user: string)
    requires forall n :: n in notes ==> !Free(n.updates, TEAM_B)
    ensures forall n :: n in Log(notes, game, user) ==> !Free(n.updates, TEAM_B)
    ensures Replay(s, notes).Some?
    ensures Lookup(Replay(s, notes).value, game, user) == Fold(Lookup(s, game, user), Log(notes, game, user))
    decreases notes
  {
    hide Updates;
    hide Record;
    hide Lookup;
    LogOf(notes, game, user);
    AliveExactly(s, notes);
    if notes == [] {
    } else {
      var n := notes[0];
      RecordThrows(s, n);
      var s' := Record(s, n).value;
      StoreIsLogs(s', notes[1..], game, user);
      RecordIsLocal(s, n, game, user);
      if About(n, game, user) {
        assert Log(notes, game, user)[1..] == Log(notes[1..], game, user);
      } else {
        assert Log(notes, game, user) == Log(notes[1..], game, user);
      }
    }
  }

  lemma {:induction false} FoldSound(g: Option<Stats>, log: seq<Note>)
    requires (forall n :: n in log ==> !Free(n.updates, TEAM_B)) && (g.Some? ==> StatsSound(g.value))
    ensures Fold(g, log).Some? ==> StatsSound(Fold(g, log).value)
    decreases log
  {
    hide Updated;
    hide StatsSound;
    if log == [] {
    } else {
      var n, h := log[0], if g == None then NoStats else g.value;
      NoStatsSound();
      if Updates(h, n).Some? {
        UpdatedSound(h, n.time, n.event, n.updates, n.description);
      }
      FoldSound(Updates(h, n), log[1..]);
    }
  }

  lemma NoStatsSound()
    ensures StatsSound(NoStats)
  {
  }

  /** Whatever arrives, every map of statistics stays in key order. */
  lemma KnownIsSound(notes: seq<Note>, game: string, user: string)
    requires forall n :: n in notes ==> !Free(n.updates, TEAM_B)
    ensures Replay(map[], notes).Some?
    ensures Lookup(Replay(map[], notes).value, game, user).Some? ==>
              StatsSound(Lookup(Replay(map[], notes).value, game, user).value)
  {
    StoreIsLogs(map[], notes, game, user);
    FoldSound(None, Log(notes, game, user));
    hide StatsSound;
    hide Replay;
    hide Fold;
    hide Log;
  }

  /** Reporters stay pairwise distinct within each game. */
  lemma RecordKeepsDistinct(s: Store, n: Note)
    requires Distinct(s) && Record(s, n).Some?
    ensures Distinct(Record(s, n).value)
  {
    hide Updates;
    var own, s': Store := Trim(n.game), Record(s, n).value;
    forall game: string | game in s'
      ensures forall i: nat, j: nat :: i < j < |s'[game]| ==> s'[game][i].user != s'[game][j].user
    {
      if game in s {
        assert forall i, j :: 0 <= i < j < |s[game]| ==> s[game][i].user != s[game][j].user;
      }
    }
  }

  lemma {:induction false} ReplayKeepsDistinct(s: Store, notes: seq<Note>)
    requires Distinct(s) && Replay(s, notes).Some?
    ensures Distinct(Replay(s, notes).value)
    decreases notes
  {
    hide Record;
    hide Distinct;
    if notes == [] {
    } else {
      RecordKeepsDistinct(s, notes[0]);
      ReplayKeepsDistinct(Record(s, notes[0]).value, notes[1..]);
    }
  }

  lemma PutLineMeans(m: seq<Entry>, line: string)
    requires Ordered(m)
    ensures Ordered(PutLine(m, line)) && Ordered(PutLine([], line))
    ensures ToMap(PutLine(m, line)) == ToMap(m) + ToMap(PutLine([], line))
  {
    hide TrimLeft;
    PutMeans(m, KeyOf(TrimLeft(line)), ValueOf(TrimLeft(line)));
    PutMeans([], KeyOf(TrimLeft(line)), ValueOf(TrimLeft(line)));
  }

  lemma MergeTwice(a: map<string, string>, b: map<string, string>, c: map<string, string>)
    ensures (a + b) + c == a + (b + c)
  {
  }

  /** The latest value of each statistic wins: reading a text lays its own entries over the old ones. */
  lemma {:induction false} LatestWins(text: string, m: seq<Entry>)
    requires Ordered(m)
    ensures ToMap(ReadLines(text, m)) == ToMap(m) + ToMap(ReadLines(text, []))
    decreases |text|
  {
    hide PutLine;
    hide Ordered;
    if text == "" {
    } else {
      match Find(text, "\n")
      case None => PutLineMeans(m, text);
      case Some(i) =>
        PutLineMeans(m, text[..i]);
        LatestWins(Trim(text[i..]), PutLine(m, text[..i]));
        LatestWins(Trim(text[i..]), PutLine([], text[..i]));
        MergeTwice(ToMap(m), ToMap(PutLine([], text[..i])), ToMap(ReadLines(Trim(text[i..]), [])));
    }
  }
}
