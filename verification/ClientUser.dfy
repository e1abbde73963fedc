/** The client's user object: its games, its subscriptions and what its receipts stand for. */
module ClientUser {
  import opened Wrappers
  import opened Text
  import opened Game
  import S = ClientStore

  datatype Command = Join | Exit | Logout

  /** The three vectors of a session: a subscription id and a receipt id are places in them. */
  datatype Session = Session(subscriptions: seq<string>, receipts: seq<Command>, actions: seq<int>)

  const NewSession := Session([], [], [])

  /** The first place of a game in a vector; the vector's length if it is not there. */
  function FirstIndex(l: seq<string>, x: string): (i: nat)
    ensures i <= |l| && (i < |l| ==> l[i] == x)
    ensures forall j :: 0 <= j < i ==> l[j] != x
  {
    if l == [] || l[0] == x then 0 else 1 + FirstIndex(l[1..], x)
  }

  function TeamA(game: string): string {
    match Find(game, "_") case None => game case Some(i) => game[..i]
  }

  function TeamB(game: string): string {
    match Find(game, "_") case None => game case Some(i) => game[i + 1..]
  }

  /** What asking for a summary answers. */
  function Answer(store: S.Store, game: string, user: string): string {
    if Trim(game) !in store then "gamename"
    else match S.Lookup(store, Trim(game), user)
         case None => "username"
         case Some(g) => Summary(TeamA(Trim(game)), TeamB(Trim(game)), g)
  }

  class User {
    var session: Session
    var connected: bool
    var games: map<string, seq<Game>>
    ghost var store: S.Store
    ghost var heap: set<Game>

    /** No two places share a game object, and the store lists what the objects hold. */
    ghost predicate Valid()
      reads this, heap
    {
      && store.Keys == games.Keys
      && (forall k :: k in games ==> |store[k]| == |games[k]|)
      && (forall k, i :: k in games && 0 <= i < |games[k]| ==>
            && games[k][i] in heap
            && games[k][i].teamA == TeamA(k) && games[k][i].teamB == TeamB(k)
            && store[k][i] == S.Report(games[k][i].username, games[k][i].View()))
      && (forall k, i, l, j ::
            k in games && 0 <= i < |games[k]| && l in games && 0 <= j < |games[l]| && games[k][i] == games[l][j]
            ==> k == l && i == j)
    }

    constructor ()
      ensures Valid() && store == map[] && session == NewSession && heap == {} && !connected
    {
      session, connected, games := NewSession, false, map[];
      store, heap := map[], {};
    }

    /** The place of a reporter's object under a game. */
    method FindReporter(game: string, user: string) returns (i: nat)
      requires Valid() && game in games
      ensures i == S.Place(store[game], user)
    {
      i := 0;
      while i < |games[game]| && games[game][i].username != user
        invariant i <= |games[game]|
        invariant forall j :: 0 <= j < i ==> store[game][j].user != user
      {
        i := i + 1;
      }
      if i < |games[game]| {
        S.PlaceIs(store[game], user, i);
      }
    }

    /** An update of an object that is already there. */
    method UpdateReporter(game: string, i: nat, ghost n: S.Note, time: string, eventName: string,
                          generalUpdates: string,
                          description: string) returns (threw: bool)
      requires Valid() && game in games && i < |games[game]| && i == S.Place(store[game], n.user)
      requires game == Trim(n.game) && n == S.Note(n.game, n.user, time, eventName, generalUpdates, description)
      modifies heap, this`store
      ensures Valid() && (threw <==> S.Record(old(store), n) == None)
      ensures if threw then store == S.RecordFailed(old(store), n) else S.Record(old(store), n) == Some(store)
    {
      hide TrimLeft;
      hide ReadLines;
      hide Split;
      S.RecordThrows(store, n);
      var g := games[game][i];
      threw := g.Update(time, eventName, generalUpdates, description);
      store := store[game := store[game][i := S.Report(g.username, g.View())]];
    }

    /** The push of a new object at the end of a game's list. */
    method PushGame(game: string, g: Game)
      requires Valid() && game in games && g !in heap && g.teamA == TeamA(game) && g.teamB == TeamB(game)
      modifies this`games, this`store, this`heap
      ensures Valid() && heap == old(heap) + {g}
      ensures store == old(store)[game := old(store)[game] + [S.Report(g.username, g.View())]]
    {
      hide TeamA;
      hide TeamB;
      games := games[game := games[game] + [g]];
      heap := heap + {g};
      store := store[game := store[game] + [S.Report(g.username, g.View())]];
    }

    /** A new object at the end of a game's list. */
    method AddReporter(game: string, ghost n: S.Note, user: string, time: string, eventName: string,
                       generalUpdates: string,
                       description: string) returns (threw: bool)
      requires Valid() && game in games && |games[game]| == S.Place(store[game], n.user)
      requires game == Trim(n.game) && n == S.Note(n.game, user, time, eventName, generalUpdates, description)
      modifies this`games, this`store, this`heap
      ensures Valid() && fresh(heap - old(heap)) && (threw <==> S.Record(old(store), n) == None)
      ensures if threw then store == S.RecordFailed(old(store), n) else S.Record(old(store), n) == Some(store)
    {
      hide ReadLines;
      hide Split;
      S.RecordThrows(store, n);
      var g := new Game(user, TeamA(game), TeamB(game));
      threw := g.Update(time, eventName, generalUpdates, description);
      if !threw {
        PushGame(game, g);
      }
    }

    /** Everything a MESSAGE does to the store, also when the update throws. */
    method Update(gameName: string, user: string, time: string, eventName: string, generalUpdates: string,
                  description: string) returns (threw: bool)
      requires Valid()
      modifies this`games, this`store, this`heap, heap
      ensures Valid() && fresh(heap - old(heap))
      ensures var n := S.Note(gameName, user, time, eventName, generalUpdates, description);
              && (threw <==> S.Record(old(store), n) == None)
              && (if threw then store == S.RecordFailed(old(store), n) else S.Record(old(store), n) == Some(store))
    {
      hide S.Record;
      hide S.RecordFailed;
      var game := Trim(gameName);
      ghost var n := S.Note(gameName, user, time, eventName, generalUpdates, description);
      if game !in games {
        AddGame(game, user);
        FirstReport(old(store), n);
      }
      var i := FindReporter(game, user);
      if i < |games[game]| {
        threw := UpdateReporter(game, i, n, time, eventName, generalUpdates, description);
      } else {
        threw := AddReporter(game, n, user, time, eventName, generalUpdates, description);
      }
    }

    /** A new game starts with one object, its first reporter's, without statistics. */
    method AddGame(game: string, user: string)
      requires Valid() && game !in games
      modifies this`games, this`store, this`heap
      ensures Valid() && fresh(heap - old(heap)) && game in games
      ensures store == old(store)[game := [S.Report(user, NoStats)]]
    {
      hide TeamA;
      hide TeamB;
      var first := new Game(user, TeamA(game), TeamB(game));
      games := games[game := [first]];
      heap := heap + {first};
      store := store[game := [S.Report(user, NoStats)]];
    }

    method GetSummary(user: string, gameName: string) returns (s: string)
      requires Valid()
      ensures s == Answer(store, gameName, user)
    {
      var game := Trim(gameName);
      if game !in games {
        return "gamename";
      }
      var i := FindReporter(game, user);
      if i == |games[game]| {
        return "username";
      }
      s := games[game][i].GetSummary();
    }

    /** The id of the first subscription to a game; empty if there is none. */
    method GetSubIdFromGameName(game: string) returns (id: string)
      ensures var i := FirstIndex(session.subscriptions, game);
              id == if i < |session.subscriptions| then Dec(i) else ""
    {
      for i := 0 to |session.subscriptions|
        invariant forall j :: 0 <= j < i ==> session.subscriptions[j] != game
      {
        if session.subscriptions[i] == game {
          return Dec(i);
        }
      }
      return "";
    }

    method ReceiptGenerator(command: Command, action: int) returns (id: string)
      modifies this`session
      ensures id == Dec(|old(session).receipts|)
      ensures session == old(session).(receipts := old(session).receipts + [command],
              actions := old(session).actions + [action])
    {
      session := session.(receipts := session.receipts + [command], actions := session.actions + [action]);
      id := Dec(|session.receipts| - 1);
    }

    method AddNewDest(dest: string) returns (id: string)
      modifies this`session
      ensures id == Dec(|old(session).subscriptions|)
      ensures session == old(session).(subscriptions := old(session).subscriptions + [dest])
    {
      session := session.(subscriptions := session.subscriptions + [dest]);
      id := Dec(|session.subscriptions| - 1);
    }

    method Connect()
      modifies this`connected
      ensures connected
    {
      connected := true;
    }

    /** The user object starts over at logout. */
    method Disconnect()
      modifies this
      ensures Valid() && store == map[] && session == NewSession && !connected
    {
      connected := false;
      games, session := map[], NewSession;
      store, heap := map[], {};
    }
  }

  /** Listing a reporter without statistics first makes no difference to what its first MESSAGE leaves. */
  lemma FirstReport(s: S.Store, n: S.Note)
    requires Trim(n.game) !in s
    ensures S.Record(s[Trim(n.game) := [S.Report(n.user, NoStats)]], n) == S.Record(s, n)
    ensures S.RecordFailed(s[Trim(n.game) := [S.Report(n.user, NoStats)]], n) == S.RecordFailed(s, n)
  {
    hide S.Updates;
    hide Trim;
    var game := Trim(n.game);
    var first := [S.Report(n.user, NoStats)];
    forall r: S.Report | r.user == n.user
      ensures S.SetReport(first, r) == [r] == S.SetReport([], r) && s[game := first][game := [r]] == s[game := [r]]
    {
    }
  }
}
