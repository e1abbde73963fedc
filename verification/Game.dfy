/** What the client knows of one game from one reporter: the latest statistics and every report. */
module Game {
  import opened Wrappers
  import opened Text
  import opened OrderedMap

  datatype Stats = Stats(general: seq<Entry>, a: seq<Entry>, b: seq<Entry>, updates: seq<string>)

  const NoStats := Stats([], [], [], [])

  /** A line up to its first colon, and after it; a line without one is both its key and its value. */
  function KeyOf(line: string): string {
    match Find(line, ":") case None => line case Some(i) => line[..i]
  }

  function ValueOf(line: string): string {
    match Find(line, ":") case None => line case Some(i) => line[i + 1..]
  }

  function PutLine(m: seq<Entry>, line: string): seq<Entry> {
    Put(m, KeyOf(TrimLeft(line)), ValueOf(TrimLeft(line)))
  }

  /** What the line loop puts into a map, line after line. */
  function ReadLines(text: string, m: seq<Entry>): seq<Entry>
    decreases |text|
  {
    if text == "" then m
    else
      match Find(text, "\n")
      case None => PutLine(m, text)
      case Some(n) => ReadLines(Trim(text[n..]), PutLine(m, text[..n]))
  }

  function AfterLine(s: string): string {
    match Find(s, "\n") case None => s case Some(n) => s[n + 1..]
  }

  function UpTo(s: string, pat: string): string {
    match Find(s, pat) case None => s case Some(n) => s[..n]
  }

  const TEAM_A := "team a updates:"
  const TEAM_B := "team b updates:"

  datatype Sections = Sections(general: string, a: string, b: string)

  /** The three parts of the updates; without the second team's marker the cut throws. */
  function Split(text: string): Option<Sections> {
    var fromA := match Find(text, TEAM_A) case None => text case Some(p) => text[p + 1..];
    match Find(text, TEAM_B)
    case None => None
    case Some(p) => Some(Sections(UpTo(text, TEAM_A), UpTo(AfterLine(fromA), TEAM_B), AfterLine(text[p..])))
  }

  function ReportEntry(time: string, event: string, description: string): string {
    time + "-" + event + ":\n\n" + description
  }

  /** One update of a game, or None where it throws. */
  function Updated(g: Stats, time: string, event: string, text: string, description: string): Option<Stats> {
    match Split(text)
    case None => None
    case Some(s) =>
      Some(Stats(ReadLines(s.general, g.general), ReadLines(Trim(s.a), g.a), ReadLines(Trim(s.b), g.b),
                 g.updates + [ReportEntry(time, event, description)]))
  }

  function StatLines(e: seq<Entry>): string {
    if e == [] then "" else StatLines(e[..|e| - 1]) + e[|e| - 1].0 + ": " + e[|e| - 1].1 + "\n"
  }

  function ReportLines(updates: seq<string>): string {
    if updates == [] then "" else ReportLines(updates[..|updates| - 1]) + updates[|updates| - 1] + "\n\n"
  }

  function Summary(teamA: string, teamB: string, g: Stats): string {
    teamA + " vs " + teamB + "\nGame stats:\nGeneral stats:\n" + StatLines(g.general)
    + teamA + " stats:\n" + StatLines(g.a) + teamB + " stats:\n" + StatLines(g.b)
    + "\nGame event reports:\n" + ReportLines(g.updates)
  }

  method ReadSection(section: string, m: seq<Entry>) returns (r: seq<Entry>)
    ensures r == ReadLines(section, m)
  {
    var rest := section;
    r := m;
    while rest != ""
      invariant ReadLines(rest, r) == ReadLines(section, m)
      decreases |rest|
    {
      var line;
      match Find(rest, "\n") {
        case None =>
          line := rest;
          rest := "";
        case Some(n) =>
          line := rest[..n];
          rest := rest[n..];
      }
      line := TrimLeft(line);
      r := Put(r, KeyOf(line), ValueOf(line));
      rest := Trim(rest);
    }
  }

  method PrintStats(e: seq<Entry>) returns (s: string)
    ensures s == StatLines(e)
  {
    s := "";
    for i := 0 to |e|
      invariant s == StatLines(e[..i])
    {
      assert e[..i + 1][..i] == e[..i];
      s := s + e[i].0 + ": " + e[i].1 + "\n";
    }
    assert e[..|e|] == e;
  }

  class Game {
    const username: string
    const teamA: string
    const teamB: string
    var mapStats: seq<Entry>
    var aStats: seq<Entry>
    var bStats: seq<Entry>
    var updates: seq<string>

    constructor (user: string, teamA: string, teamB: string)
      ensures username == user && this.teamA == teamA && this.teamB == teamB && View() == NoStats
    {
      this.username, this.teamA, this.teamB := user, teamA, teamB;
      mapStats, aStats, bStats, updates := [], [], [], [];
    }

    function View(): Stats
      reads this
    {
      Stats(mapStats, aStats, bStats, updates)
    }

    /** Throws exactly without the second team's marker, the report then already recorded. */
    method Update(time: string, eventName: string, generalUpdates: string, description: string) returns (threw: bool)
      modifies this
      ensures threw <==> Free(generalUpdates, TEAM_B)
      ensures threw ==> View() == old(View()).(updates := old(updates) + [ReportEntry(time, eventName, description)])
      ensures !threw ==> Updated(old(View()), time, eventName, generalUpdates, description) == Some(View())
    {
      hide AfterLine;
      hide FindFrom;
      hide TEAM_B;
      hide ReadLines;
      hide Trim;
      updates := updates + [time + "-" + eventName + ":\n\n" + description];
      var posA, posB := Find(generalUpdates, TEAM_A), Find(generalUpdates, TEAM_B);
      var general := "";
      if posA != Some(0) {
        general := if posA.Some? then generalUpdates[..posA.value] else generalUpdates;
      }
      var a := if posA.Some? then generalUpdates[posA.value + 1..] else generalUpdates;
      a := AfterLine(a);
      a := UpTo(a, TEAM_B);
      if posB == None {
        return true;
      }
      var b := AfterLine(generalUpdates[posB.value..]);
      mapStats := ReadSection(general, mapStats);
      aStats := ReadSection(Trim(a), aStats);
      bStats := ReadSection(Trim(b), bStats);
      return false;
    }

    method GetSummary() returns (s: string)
      ensures s == Summary(teamA, teamB, View())
    {
      s := teamA + " vs " + teamB + "\nGame stats:\nGeneral stats:\n";
      var lines := PrintStats(mapStats);
      s := s + lines + teamA + " stats:\n";
      lines := PrintStats(aStats);
      s := s + lines + teamB + " stats:\n";
      lines := PrintStats(bStats);
      s := s + lines + "\nGame event reports:\n";
      ghost var head := s;
      for i := 0 to |updates|
        invariant s == head + ReportLines(updates[..i])
      {
        assert updates[..i + 1][..i] == updates[..i];
        s := s + updates[i] + "\n\n";
      }
      assert updates[..|updates|] == updates;
    }
  }

  /** What lines can hold: no key has a colon or a line break, and no value a line break. */
  predicate Lined(e: seq<Entry>) {
    forall x :: x in e ==> ':' !in x.0 && '\n' !in x.0 && '\n' !in x.1
  }

  lemma KeyAndValueLined(line: string)
    requires '\n' !in line
    ensures ':' !in KeyOf(line) && '\n' !in KeyOf(line) && '\n' !in ValueOf(line)
  {
    hide FindFrom;
    if Find(line, ":") == None {
      FreeChar(line, ':');
    } else {
      var n := Find(line, ":").value;
      forall i | 0 <= i < n ensures line[i] != ':' {
        assert !Occurs(line, ":", i);
        assert line[i..i + 1] == [line[i]];
      }
    }
  }

  /** One line more keeps a map a map in key order, and of lines. */
  lemma PutLineSound(m: seq<Entry>, line: string)
    requires Ordered(m) && Lined(m) && '\n' !in line
    ensures Ordered(PutLine(m, line)) && Lined(PutLine(m, line))
  {
    hide KeyOf;
    hide ValueOf;
    hide TrimLeft;
    TrimLeftIsPart(line);
    var (k, v) := (KeyOf(TrimLeft(line)), ValueOf(TrimLeft(line)));
    KeyAndValueLined(TrimLeft(line));
    PutMeans(m, k, v);
    forall x | x in Put(m, k, v) ensures x == (k, v) || x in m {
      PutEntries(m, k, v, x);
    }
  }

  lemma FirstLineIsLine(text: string)
    ensures match Find(text, "\n") case None => '\n' !in text case Some(n) => '\n' !in text[..n]
  {
    hide FindFrom;
    if Find(text, "\n") == None {
      FreeChar(text, '\n');
    } else {
      var n := Find(text, "\n").value;
      forall i | 0 <= i < n ensures text[i] != '\n' {
        assert !Occurs(text, "\n", i);
        assert text[i..i + 1] == [text[i]];
      }
    }
  }

  /** So does reading any text at all. */
  lemma {:induction false} ReadLinesSound(text: string, m: seq<Entry>)
    requires Ordered(m) && Lined(m)
    ensures Ordered(ReadLines(text, m)) && Lined(ReadLines(text, m))
    decreases |text|
  {
    hide PutLine;
    hide Lined;
    hide Trim;
    FirstLineIsLine(text);
    if text == "" {
    } else {
      match Find(text, "\n")
      case None => PutLineSound(m, text);
      case Some(n) =>
        PutLineSound(m, text[..n]);
        ReadLinesSound(Trim(text[n..]), PutLine(m, text[..n]));
    }
  }

  /** A line without a colon is both its key and its value. */
  lemma ColonlessLine(line: string, m: seq<Entry>)
    requires line != "" && ':' !in line && '\n' !in line && Ordered(m)
    ensures ToMap(ReadLines(line, m)) == ToMap(m)[TrimLeft(line) := TrimLeft(line)]
  {
    FreeChar(line, '\n');
    TrimLeftIsPart(line);
    FreeChar(TrimLeft(line), ':');
    PutMeans(m, TrimLeft(line), TrimLeft(line));
  }

  ghost predicate StatsSound(g: Stats) {
    && Ordered(g.general) && Ordered(g.a) && Ordered(g.b)
    && Lined(g.general) && Lined(g.a) && Lined(g.b)
  }

  lemma UpdatedSound(g: Stats, time: string, event: string, text: string, description: string)
    requires StatsSound(g) && Updated(g, time, event, text, description).Some?
    ensures StatsSound(Updated(g, time, event, text, description).value)
  {
    var s := Split(text).value;
    ReadLinesSound(s.general, g.general);
    ReadLinesSound(Trim(s.a), g.a);
    ReadLinesSound(Trim(s.b), g.b);
  }

  /** A summary has line breaks, so it is never taken for one of the two answers that mean "not found". */
  lemma SummaryIsNoAnswer(teamA: string, teamB: string, g: Stats)
    ensures Summary(teamA, teamB, g) != "gamename" && Summary(teamA, teamB, g) != "username"
  {
    assert '\n' in "\nGame stats:\nGeneral stats:\n";
    var s := Summary(teamA, teamB, g);
    assert s[|teamA + " vs " + teamB|] == '\n';
    assert '\n' !in "gamename" && '\n' !in "username";
  }
}
