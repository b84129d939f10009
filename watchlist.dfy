/** The watchlist store (controllers/zaed/watchlistController.js). */
module Watchlist {
  import opened Options
  import opened Store

  const AddedMessage := "Movie added to watchlist"
  const AlreadyListedMessage := "Movie already in watchlist"
  const RemovedMessage := "Movie removed from watchlist"
  /** The TypeError that reading `movie._id` throws when the body carries no movie. */
  const NoMovieError := "Cannot read properties of undefined (reading '_id')"

  /** The movie snapshot a client stores; only its `_id` is ever inspected. */
  datatype Movie = Movie(id: string, title: string)

  datatype Entry = Entry(id: string, userId: string, movie: Movie)

  /** The store calls the three handlers make. */
  datatype Call = FindOne | Save | Find | FindByIdAndDelete

  datatype Reply =
    | Added                      // 201 { message: AddedMessage }
    | AlreadyListed              // 400 { message: AlreadyListedMessage }
    | Movies(movies: seq<Entry>) // 200 { movies }
    | Removed                    // 200 { message: RemovedMessage }
    | Failed(message: string)    // 500 { message: error.message }
  {
    function Status(): nat {
      match this
      case Added => 201
      case AlreadyListed => 400
      case Movies(_) => 200
      case Removed => 200
      case Failed(_) => 500
    }

    /** The `message` field of the JSON body, when it has one. */
    function Message(): Option<string> {
      match this
      case Added => Some(AddedMessage)
      case AlreadyListed => Some(AlreadyListedMessage)
      case Movies(_) => None
      case Removed => Some(RemovedMessage)
      case Failed(m) => Some(m)
    }
  }

  datatype Outcome = Outcome(reply: Reply, entries: seq<Entry>)

  ghost predicate UniqueIds(entries: seq<Entry>) {
    forall i, j :: 0 <= i < j < |entries| ==> entries[i].id != entries[j].id
  }

  /** The entry is the user's entry for that movie (the `findOne` filter). */
  predicate SameMovie(e: Entry, userId: string, movieId: string) {
    e.userId == userId && e.movie.id == movieId
  }

  /** No user has the same movie twice. */
  ghost predicate NoDuplicates(entries: seq<Entry>) {
    forall i, j :: 0 <= i < j < |entries| ==> !SameMovie(entries[j], entries[i].userId, entries[i].movie.id)
  }

  /** `addToWatchlist`: the duplicate check, then one insert. */
  function AddOutcome(entries: seq<Entry>, userId: string, movie: Option<Movie>, fault: Fault<Call>): (o: Outcome)
    ensures o.reply == AlreadyListed <==>
      movie.Some? && !FailsAt(fault, FindOne)
      && exists k :: 0 <= k < |entries| && SameMovie(entries[k], userId, movie.value.id)
    ensures o.reply == Added <==>
      movie.Some? && !FailsAt(fault, FindOne) && !FailsAt(fault, Save)
      && forall k :: 0 <= k < |entries| ==> !SameMovie(entries[k], userId, movie.value.id)
    ensures o.reply.Failed? <==>
      movie.None? || FailsAt(fault, FindOne)
      || (FailsAt(fault, Save) && forall k :: 0 <= k < |entries| ==> !SameMovie(entries[k], userId, movie.value.id))
    ensures o.reply.Failed? ==> o.reply.message == if movie.None? then NoMovieError else fault.message
    ensures o.reply != Added ==> o.entries == entries
    ensures o.reply == Added ==>
      |o.entries| == |entries| + 1 && o.entries[..|entries|] == entries
      && o.entries[|entries|].userId == userId && o.entries[|entries|].movie == movie.value
      && (forall k :: 0 <= k < |entries| ==> entries[k].id != o.entries[|entries|].id)
    ensures NoDuplicates(entries) ==> NoDuplicates(o.entries)
    ensures UniqueIds(entries) ==> UniqueIds(o.entries)
  {
    if movie.None? then Outcome(Failed(NoMovieError), entries)
    else if FailsAt(fault, FindOne) then Outcome(Failed(fault.message), entries)
    else if IndexWhere((e: Entry) => SameMovie(e, userId, movie.value.id), entries).Some? then Outcome(AlreadyListed, entries)
    else if FailsAt(fault, Save) then Outcome(Failed(fault.message), entries)
    else
      var id := FreshId(entries, (e: Entry) => e.id);
      Outcome(Added, entries + [Entry(id, userId, movie.value)])
  }

  /** The user's entries, in store order (`Watchlist.find({ userId })`). */
  function ByUser(entries: seq<Entry>, userId: string): (r: seq<Entry>)
    ensures forall k :: 0 <= k < |r| ==> r[k].userId == userId && r[k] in entries
    ensures forall k :: 0 <= k < |entries| && entries[k].userId == userId ==> entries[k] in r
    ensures forall e {:trigger multiset(r)[e]} :: multiset(r)[e] == if e.userId == userId then multiset(entries)[e] else 0
    ensures Subsequence(r, entries)
  {
    Filter((e: Entry) => e.userId == userId, entries)
  }

  /** `removeFromWatchlist`: `findByIdAndDelete` on the path parameter; 200 whether or not
      an entry had that id. */
  function RemoveOutcome(entries: seq<Entry>, id: string, fault: Fault<Call>): (o: Outcome)
    ensures o.reply == if FailsAt(fault, FindByIdAndDelete) then Failed(fault.message) else Removed
    ensures (FailsAt(fault, FindByIdAndDelete) || forall k :: 0 <= k < |entries| ==> entries[k].id != id) ==>
      o.entries == entries
    ensures UniqueIds(entries) && !FailsAt(fault, FindByIdAndDelete) ==>
      o.entries == Filter((e: Entry) => e.id != id, entries)
    ensures NoDuplicates(entries) ==> NoDuplicates(o.entries)
    ensures UniqueIds(entries) ==> UniqueIds(o.entries)
  {
    if FailsAt(fault, FindByIdAndDelete) then Outcome(Failed(fault.message), entries)
    else
      match IndexWhere((e: Entry) => e.id == id, entries)
      case None =>
        FilterAll((e: Entry) => e.id != id, entries);
        Outcome(Removed, entries)
      case Some(k) =>
        var rest := RemoveAt(entries, k);
        assert UniqueIds(entries) ==> rest == Filter((e: Entry) => e.id != id, entries) by {
          if UniqueIds(entries) {
            RemoveAtIsFilter((e: Entry) => e.id != id, entries, k);
          }
        }
        Outcome(Removed, rest)
  }

  /** One request to the watchlist handlers. */
  datatype Request =
    | Add(userId: string, movie: Option<Movie>, addFault: Fault<Call>)
    | List(listUserId: string, listFault: Fault<Call>)
    | Remove(id: string, removeFault: Fault<Call>)

  /** The collection after one request (listing changes nothing). */
  function Step(entries: seq<Entry>, r: Request): seq<Entry> {
    match r
    case Add(u, m, f) => AddOutcome(entries, u, m, f).entries
    case List(_, _) => entries
    case Remove(id, f) => RemoveOutcome(entries, id, f).entries
  }

  /** The collection after a sequence of requests, handled one at a time. */
  function Replay(entries: seq<Entry>, rs: seq<Request>): seq<Entry>
    decreases |rs|
  {
    if rs == [] then entries else Replay(Step(entries, rs[0]), rs[1..])
  }

  /** From a store with no duplicate (user, movie) pair and distinct ids, any sequence of
      requests keeps both properties. */
  lemma {:induction false} ReplayKeepsNoDuplicates(entries: seq<Entry>, rs: seq<Request>)
    requires NoDuplicates(entries) && UniqueIds(entries)
    ensures NoDuplicates(Replay(entries, rs)) && UniqueIds(Replay(entries, rs))
    decreases |rs|
  {
    if rs != [] {
      ReplayKeepsNoDuplicates(Step(entries, rs[0]), rs[1..]);
    }
  }

  /** An added entry appears at the end of its user's list; other users' lists are as before. */
  lemma AddThenList(entries: seq<Entry>, userId: string, movie: Option<Movie>, fault: Fault<Call>, u: string)
    requires AddOutcome(entries, userId, movie, fault).reply == Added
    ensures var after := AddOutcome(entries, userId, movie, fault).entries;
      ByUser(after, u) == ByUser(entries, u) + (if u == userId then [after[|entries|]] else [])
  {
    var after := AddOutcome(entries, userId, movie, fault).entries;
    assert after == entries + [after[|entries|]];
    FilterConcat((e: Entry) => e.userId == u, entries, [after[|entries|]]);
  }

  /** Removing the entry just added, by its id, restores the collection. */
  lemma AddThenRemove(entries: seq<Entry>, userId: string, movie: Option<Movie>, fault: Fault<Call>)
    requires AddOutcome(entries, userId, movie, fault).reply == Added
    ensures var after := AddOutcome(entries, userId, movie, fault).entries;
      RemoveOutcome(after, after[|entries|].id, NoFault).entries == entries
  {
  }

  class WatchlistStore {
    var entries: seq<Entry>

    ghost predicate Valid()
      reads this
    {
      UniqueIds(entries) && NoDuplicates(entries)
    }

    constructor ()
      ensures Valid() && entries == []
    {
      entries := [];
    }

    method AddToWatchlist(userId: string, movie: Option<Movie>, fault: Fault<Call>) returns (res: Reply)
      requires Valid()
      modifies this
      ensures Valid()
      ensures var o := AddOutcome(old(entries), userId, movie, fault); res == o.reply && entries == o.entries
    {
      if movie.None? {
        return Failed(NoMovieError);
      }
      if FailsAt(fault, FindOne) {
        return Failed(fault.message);
      }
      var existing := IndexWhere((e: Entry) => SameMovie(e, userId, movie.value.id), entries);
      if existing.Some? {
        return AlreadyListed;
      }
      if FailsAt(fault, Save) {
        return Failed(fault.message);
      }
      entries := entries + [Entry(FreshId(entries, (e: Entry) => e.id), userId, movie.value)];
      res := Added;
    }

    /** `getWatchlist`: reads the collection and changes nothing. */
    method GetWatchlist(userId: string, fault: Fault<Call>) returns (res: Reply)
      ensures FailsAt(fault, Find) ==> res == Failed(fault.message)
      ensures !FailsAt(fault, Find) ==> res == Movies(ByUser(entries, userId))
    {
      if FailsAt(fault, Find) {
        return Failed(fault.message);
      }
      res := Movies(ByUser(entries, userId));
    }

    method RemoveFromWatchlist(id: string, fault: Fault<Call>) returns (res: Reply)
      requires Valid()
      modifies this
      ensures Valid()
      ensures var o := RemoveOutcome(old(entries), id, fault); res == o.reply && entries == o.entries
    {
      if FailsAt(fault, FindByIdAndDelete) {
        return Failed(fault.message);
      }
      var found := IndexWhere((e: Entry) => e.id == id, entries);
      if found.Some? {
        entries := RemoveAt(entries, found.value);
      }
      res := Removed;
    }
  }
}
