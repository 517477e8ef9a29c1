/**
 * The record stores the service talks to (the line repository, the connection
 * repository and the station directory), as functions over their in-memory
 * contents, with the consistency predicates that tie the tables together.
 */
module LineStores {
  import opened Wrappers
  import opened LineDomain

  /** Every station is stored under its own identifier. */
  ghost predicate DirectoryOk(directory: map<int, Station>)
  {
    forall k :: k in directory ==> directory[k].id == k
  }

  /** Strictly increasing: no identifier occurs twice. */
  ghost predicate Increasing(s: seq<int>)
  {
    forall i, j :: 0 <= i < j < |s| ==> s[i] < s[j]
  }

  /**
   * The line table: every line is stored under its own identifier, every identifier is
   * below the next one to be handed out, and `order` (the order in which the store
   * returns its lines) lists each stored identifier exactly once.
   */
  ghost predicate LineTableOk(lines: map<int, Line>, order: seq<int>, nextId: int)
  {
    && (forall k :: k in lines ==> lines[k].id == k && k < nextId)
    && (forall k :: k in order <==> k in lines)
    && Increasing(order)
  }

  /** Referential integrity: every connection names a stored line and holds a station of the directory. */
  ghost predicate ReferencesOk(connections: seq<Connection>, lines: map<int, Line>, directory: map<int, Station>)
  {
    forall c :: c in connections ==>
      c.lineId in lines && c.station.id in directory && directory[c.station.id] == c.station
  }

  /**
   * StationService.findStationsByIdList, whose code is not part of this model: assumed
   * to fail when some identifier has no station, and otherwise to return the stations
   * in the order of the identifiers.
   */
  function FindStationsByIdList(directory: map<int, Station>, ids: seq<int>): (r: Option<seq<Station>>)
    ensures r.Some? <==> forall i :: 0 <= i < |ids| ==> ids[i] in directory
    ensures r.Some? ==> |r.value| == |ids| && forall i :: 0 <= i < |ids| ==> r.value[i] == directory[ids[i]]
  {
    if ids == [] then Some([])
    else if ids[0] !in directory then None
    else match FindStationsByIdList(directory, ids[1..])
      case None => None
      case Some(rest) => Some([directory[ids[0]]] + rest)
  }

  /** LineRepository.findAll: the stored lines, in the store's order. */
  function FindAll(lines: map<int, Line>, order: seq<int>): (r: seq<Line>)
    requires forall i :: 0 <= i < |order| ==> order[i] in lines
    ensures |r| == |order|
    ensures forall i :: 0 <= i < |r| ==> r[i] == lines[order[i]]
  {
    if order == [] then [] else [lines[order[0]]] + FindAll(lines, order[1..])
  }

  /** LineStationRepository.findAllByLine: the connections of one line, in stored order. */
  function FindAllByLine(connections: seq<Connection>, lineId: int): (r: seq<Connection>)
    ensures forall i :: 0 <= i < |r| ==> r[i].lineId == lineId && r[i] in connections
    ensures forall c :: c in connections && c.lineId == lineId ==> c in r
  {
    if connections == [] then []
    else if connections[0].lineId == lineId then [connections[0]] + FindAllByLine(connections[1..], lineId)
    else FindAllByLine(connections[1..], lineId)
  }

  /** LineStationRepository.deleteAllByLine: what remains after removing one line's connections. */
  function DeleteAllByLine(connections: seq<Connection>, lineId: int): (r: seq<Connection>)
    ensures forall i :: 0 <= i < |r| ==> r[i].lineId != lineId && r[i] in connections
    ensures forall c :: c in connections && c.lineId != lineId ==> c in r
  {
    if connections == [] then []
    else if connections[0].lineId == lineId then DeleteAllByLine(connections[1..], lineId)
    else [connections[0]] + DeleteAllByLine(connections[1..], lineId)
  }

  /** LineRepository.deleteById, on the store's order of identifiers. */
  function RemoveId(order: seq<int>, id: int): (r: seq<int>)
    ensures forall k :: k in r <==> k in order && k != id
  {
    if order == [] then []
    else if order[0] == id then RemoveId(order[1..], id)
    else [order[0]] + RemoveId(order[1..], id)
  }

  /** Removing an identifier keeps the order strictly increasing. */
  lemma {:induction false} RemoveIdIncreasing(order: seq<int>, id: int)
    requires Increasing(order)
    ensures Increasing(RemoveId(order, id))
  {
    if order != [] {
      assert Increasing(order[1..]);
      RemoveIdIncreasing(order[1..], id);
      var rest := RemoveId(order[1..], id);
      if order[0] != id {
        forall k | k in rest ensures order[0] < k {
          var j :| 0 <= j < |order[1..]| && order[1..][j] == k;
          assert order[j + 1] == k;
        }
        var r := [order[0]] + rest;
        forall i, j | 0 <= i < j < |r| ensures r[i] < r[j] {
          if i == 0 {
            assert r[j] in rest;
          } else {
            assert r[i] == rest[i - 1] && r[j] == rest[j - 1];
          }
        }
      }
    }
  }

  /** Looking up the connections of a line distributes over concatenation. */
  lemma {:induction false} FindAllByLineAppend(a: seq<Connection>, b: seq<Connection>, lineId: int)
    ensures FindAllByLine(a + b, lineId) == FindAllByLine(a, lineId) + FindAllByLine(b, lineId)
  {
    if a == [] {
      assert a + b == b;
    } else {
      assert (a + b)[1..] == a[1..] + b;
      FindAllByLineAppend(a[1..], b, lineId);
    }
  }

  /** When every connection belongs to `lineId`, the lookup returns all of them, in order. */
  lemma {:induction false} FindAllByLineOwn(connections: seq<Connection>, lineId: int)
    requires forall i :: 0 <= i < |connections| ==> connections[i].lineId == lineId
    ensures FindAllByLine(connections, lineId) == connections
  {
    if connections != [] {
      FindAllByLineOwn(connections[1..], lineId);
    }
  }

  /** When no connection belongs to `lineId`, the lookup returns nothing. */
  lemma FindAllByLineNone(connections: seq<Connection>, lineId: int)
    requires forall c :: c in connections ==> c.lineId != lineId
    ensures FindAllByLine(connections, lineId) == []
  {
  }

  /**
   * After deleting the connections of `lineId`, that line has none, and every other
   * line still has exactly the connections it had, in the same order.
   */
  lemma {:induction false} FindAllAfterDelete(connections: seq<Connection>, lineId: int, other: int)
    ensures FindAllByLine(DeleteAllByLine(connections, lineId), other)
         == if other == lineId then [] else FindAllByLine(connections, other)
  {
    if connections != [] {
      FindAllAfterDelete(connections[1..], lineId, other);
    }
  }

  /**
   * The connections made for a newly saved line are exactly what reading that line's
   * connections back returns, provided no earlier connection names that line; the
   * other lines read back what they had before.
   */
  lemma SavedConnectionsReadBack(before: seq<Connection>, stations: seq<Station>, lineId: int, other: int)
    requires forall c :: c in before ==> c.lineId != lineId
    ensures FindAllByLine(before + CreateConnectionsList(stations, lineId), lineId)
         == CreateConnectionsList(stations, lineId)
    ensures other != lineId ==>
      FindAllByLine(before + CreateConnectionsList(stations, lineId), other) == FindAllByLine(before, other)
  {
    var added := CreateConnectionsList(stations, lineId);
    FindAllByLineAppend(before, added, lineId);
    FindAllByLineNone(before, lineId);
    FindAllByLineOwn(added, lineId);
    FindAllByLineAppend(before, added, other);
    if other != lineId {
      FindAllByLineNone(added, other);
    }
  }

  /**
   * Deleting a line's connections and then the line keeps every reference valid, and so
   * does the state in between, where the connections are gone and the line is not.
   */
  lemma ConnectionsFirstKeepsReferences(connections: seq<Connection>, lines: map<int, Line>,
                                        directory: map<int, Station>, lineId: int)
    requires ReferencesOk(connections, lines, directory)
    ensures ReferencesOk(DeleteAllByLine(connections, lineId), lines, directory)
    ensures ReferencesOk(DeleteAllByLine(connections, lineId), lines - {lineId}, directory)
  {
  }

  /**
   * The opposite order would not do: deleting a line that still has connections leaves
   * those connections dangling.
   */
  lemma LineFirstLeavesDangling(connections: seq<Connection>, lines: map<int, Line>,
                                directory: map<int, Station>, lineId: int)
    requires FindAllByLine(connections, lineId) != []
    ensures !ReferencesOk(connections, lines - {lineId}, directory)
  {
  }
}
