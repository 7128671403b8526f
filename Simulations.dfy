/** The simulation driver (`Simulacion`): builds the roster of clients, one
    per turn, from the clients parsed out of the input file, then runs one
    turn per roster entry. Parsing, ordering and logging are not part of
    this model; the parsed clients arrive as a sequence in iterator order. */
module Simulations {
  import opened Results

  /** `NUMERO_TURNOS`. */
  const NumberOfTurns: nat := 10

  /** The exception `ArrayList.get` raises on an index past the end. */
  datatype RosterError = IndexOutOfBounds(index: int, size: nat)

  /** How many parsed clients the load loop takes: it keeps going while the
      count is at most `NumberOfTurns`, so it stops only after one more. */
  function LoadedCount(available: nat): (k: nat)
    ensures k <= available && k <= NumberOfTurns + 1
    ensures k == available || k == NumberOfTurns + 1
  {
    if available <= NumberOfTurns then available else NumberOfTurns + 1
  }

  /** The padding loop's first index, `NumberOfTurns - k`, lies inside a list
      of the `k` loaded clients (or there is no padding at all). */
  predicate PaddingInBounds(k: nat)
  {
    NumberOfTurns <= k || NumberOfTurns - k < k
  }

  /** The roster the loops build from `loaded` when no index fails: the
      loaded clients, then for every turn `j` from `|loaded|` to
      `NumberOfTurns - 1` the loaded client at position `NumberOfTurns - j`. */
  function PaddedRoster<T>(loaded: seq<T>): (r: seq<T>)
    requires PaddingInBounds(|loaded|)
  {
    if |loaded| >= NumberOfTurns then loaded
    else loaded + seq(NumberOfTurns - |loaded|, i requires 0 <= i < NumberOfTurns - |loaded| =>
                                                 loaded[NumberOfTurns - |loaded| - i])
  }

  class Simulation<Client> {
    /** `clientesTurnos`: the client that takes each turn. */
    var turnRoster: seq<Client>

    constructor ()
      ensures turnRoster == []
    {
      turnRoster := [];
    }

    /** The client-loading and roster-padding loops of `inicializarSimulacion`.
        `parsed` is what the parser's client iterator yields, in order. */
    method InitializeRoster(parsed: seq<Client>) returns (outcome: Outcome<RosterError>)
      requires turnRoster == []
      modifies this
      ensures outcome.Pass? <==> PaddingInBounds(LoadedCount(|parsed|))
      ensures outcome.Pass? ==> turnRoster == PaddedRoster(parsed[..LoadedCount(|parsed|)])
      ensures outcome.Fail? ==>
        var k := LoadedCount(|parsed|);
        turnRoster == parsed[..k] && outcome.error == IndexOutOfBounds(NumberOfTurns - k, k)
    {
      var loaded := 0;
      while loaded < |parsed| && loaded <= NumberOfTurns
        invariant loaded <= |parsed| && loaded <= NumberOfTurns + 1
        invariant turnRoster == parsed[..loaded]
      {
        turnRoster := turnRoster + [parsed[loaded]];
        loaded := loaded + 1;
      }
      ghost var k := loaded;
      assert k == LoadedCount(|parsed|);
      if loaded < NumberOfTurns {
        while loaded < NumberOfTurns
          invariant k <= loaded <= NumberOfTurns
          invariant |turnRoster| == loaded && turnRoster[..k] == parsed[..k]
          invariant loaded > k ==> PaddingInBounds(k)
          invariant forall j :: k <= j < loaded ==> turnRoster[j] == parsed[NumberOfTurns - j]
        {
          var index := NumberOfTurns - loaded;
          if index >= |turnRoster| {
            return Fail(IndexOutOfBounds(index, |turnRoster|));
          }
          turnRoster := turnRoster + [turnRoster[index]];
          loaded := loaded + 1;
        }
      }
      return Pass;
    }

    /** The turn loop of `ejecutarTurnos`: turn `i` is taken by the client at
        position `i` of the roster, and the client of the last turn is the
        one whose store is queried afterwards (none for an empty roster,
        where the Java variable stays `null`). What a client does in its turn
        is not part of this model, so `served` records only the turn order;
        `TurnCount` states how many turns run. */
    method ExecuteTurns() returns (served: seq<Client>, last: Option<Client>)
      ensures served == turnRoster
      ensures last.None? <==> turnRoster == []
      ensures last.Some? ==> last.value == turnRoster[|turnRoster| - 1]
    {
      served := [];
      last := None;
      for i := 0 to |turnRoster|
        invariant served == turnRoster[..i]
        invariant last.None? <==> i == 0
        invariant last.Some? ==> i > 0 && last.value == turnRoster[i - 1]
      {
        var client := turnRoster[i];
        served := served + [client];
        last := Some(client);
      }
    }
  }

  /** The padding index stays in range exactly when at least six clients
      were loaded. */
  lemma PaddingInBoundsFromSix(k: nat)
    ensures PaddingInBounds(k) <==> k >= 6
  {
  }

  /** The roster starts with the loaded clients, unchanged and in order, and
      every padded entry is one of them. */
  lemma {:induction false} PaddedRosterExtendsLoaded<T>(loaded: seq<T>)
    requires PaddingInBounds(|loaded|)
    ensures |loaded| <= |PaddedRoster(loaded)|
    ensures PaddedRoster(loaded)[..|loaded|] == loaded
    ensures forall x :: x in PaddedRoster(loaded) ==> x in loaded
  {
    var r := PaddedRoster(loaded);
    forall x | x in r
      ensures x in loaded
    {
      var j :| 0 <= j < |r| && r[j] == x;
      if j >= |loaded| {
        assert r[j] == loaded[NumberOfTurns - j];
      }
    }
  }

  /** The number of turns that run equals the roster length: 10 when six to
      ten clients are supplied, 11 when eleven or more are. */
  lemma TurnCount<T>(parsed: seq<T>)
    requires 6 <= |parsed|
    ensures PaddingInBounds(LoadedCount(|parsed|))
    ensures |PaddedRoster(parsed[..LoadedCount(|parsed|)])| == if |parsed| <= NumberOfTurns then 10 else 11
  {
  }

  /** Seven loaded clients: the padding repeats the fourth, third and second. */
  lemma SevenClientsRoster()
    ensures PaddedRoster([0, 1, 2, 3, 4, 5, 6]) == [0, 1, 2, 3, 4, 5, 6, 3, 2, 1]
  {
    var r := PaddedRoster([0, 1, 2, 3, 4, 5, 6]);
    assert r[7] == 3 && r[8] == 2 && r[9] == 1;
  }

  /** Three parsed clients: the first padding step reads index 7 of a list of
      three, and the roster is left with only the loaded clients. The
      exception escapes `main`, so no turn runs at all. */
  method ThreeClientsOutOfBounds() returns (outcome: Outcome<RosterError>, rosterSize: nat)
    ensures outcome == Fail(IndexOutOfBounds(7, 3))
    ensures rosterSize == 3
  {
    var simulation := new Simulation<int>();
    outcome := simulation.InitializeRoster([0, 1, 2]);
    assert [0, 1, 2][..3] == [0, 1, 2];
    rosterSize := |simulation.turnRoster|;
  }

  /** Twelve parsed clients: eleven are loaded, so eleven turns run. */
  method ElevenOfTwelveClientsLoaded() returns (outcome: Outcome<RosterError>, turns: nat)
    ensures outcome == Pass
    ensures turns == 11
  {
    var simulation := new Simulation<int>();
    outcome := simulation.InitializeRoster([0, 1, 2, 3, 4, 5, 6, 7, 8, 9, 10, 11]);
    var served, last := simulation.ExecuteTurns();
    turns := |served|;
  }

  /** How many parsed clients the corrected load loop takes. */
  function IntendedLoadCount(available: nat): (k: nat)
    ensures k <= available && k <= NumberOfTurns
    ensures k == available || k == NumberOfTurns
  {
    if available < NumberOfTurns then available else NumberOfTurns
  }

  /** The roster the code was evidently meant to build: at most
      `NumberOfTurns` clients loaded, then repeated in cyclic order until
      there is one per turn. With no client there is nothing to repeat. */
  function IntendedRoster<T>(parsed: seq<T>): (r: seq<T>)
    ensures parsed == [] ==> r == []
    ensures parsed != [] ==> |r| == NumberOfTurns
  {
    if parsed == [] then []
    else
      var k := IntendedLoadCount(|parsed|);
      seq(NumberOfTurns, i requires 0 <= i < NumberOfTurns => parsed[i % k])
  }

  /** The intended roster starts with the loaded clients, in order. */
  lemma IntendedRosterStartsWithLoaded<T>(parsed: seq<T>, j: nat)
    requires j < IntendedLoadCount(|parsed|)
    ensures IntendedRoster(parsed)[j] == parsed[j]
  {
    var k := IntendedLoadCount(|parsed|);
    assert j % k == j;
  }

  /** Every entry of the intended roster is one of the parsed clients. */
  lemma IntendedRosterDrawsFromParsed<T>(parsed: seq<T>, j: nat)
    requires j < |IntendedRoster(parsed)|
    ensures IntendedRoster(parsed)[j] in parsed
  {
    var k := IntendedLoadCount(|parsed|);
    assert 0 <= j % k < k;
    assert IntendedRoster(parsed)[j] == parsed[j % k];
  }

  /** With exactly ten parsed clients the code as written already builds the
      intended roster. */
  lemma AsWrittenMatchesIntendedAtTen<T>(parsed: seq<T>)
    requires |parsed| == NumberOfTurns
    ensures PaddingInBounds(LoadedCount(|parsed|))
    ensures PaddedRoster(parsed[..LoadedCount(|parsed|)]) == IntendedRoster(parsed)
  {
    var r := IntendedRoster(parsed);
    forall j | 0 <= j < NumberOfTurns
      ensures r[j] == parsed[j]
    {
      IntendedRosterStartsWithLoaded(parsed, j);
    }
    assert parsed[..NumberOfTurns] == parsed;
  }

  /** With six to nine loaded clients the code as written does not fail but
      pads in a different order from the intended roster: seven clients
      repeat the fourth, third and second, not the first three. */
  lemma AsWrittenDiffersFromIntendedAtSeven()
    ensures PaddedRoster([0, 1, 2, 3, 4, 5, 6]) != IntendedRoster([0, 1, 2, 3, 4, 5, 6])
  {
    SevenClientsRoster();
    assert IntendedRoster([0, 1, 2, 3, 4, 5, 6])[7] == 0;
  }

  /** Three parsed clients: the intended roster takes them in turn. */
  lemma IntendedRosterThreeClients()
    ensures IntendedRoster([0, 1, 2]) == [0, 1, 2, 0, 1, 2, 0, 1, 2, 0]
  {
    var r := IntendedRoster([0, 1, 2]);
    assert r[3] == 0 && r[4] == 1 && r[5] == 2 && r[6] == 0 && r[7] == 1 && r[8] == 2 && r[9] == 0;
  }
}
