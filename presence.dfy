/**
  The pure part of one `server_loop` iteration in cogs/AstroDedicatedServer.py: the
  in-game name filter over a console snapshot, and the length-based join/leave rule that
  compares it with the previous roster through set differences.
 */
module Presence {

  /** One entry of the console's `playerInfo` list. */
  datatype PlayerInfo = PlayerInfo(playerName: string, inGame: bool)

  /** A successful console reply (`DSListPlayers`); only `playerInfo` is read by the supervisor. */
  datatype PlayerList = PlayerList(playerInfo: seq<PlayerInfo>)

  /** `[x['playerName'] for x in playerInfo if x['inGame']]`. */
  function InGameNames(info: seq<PlayerInfo>): (names: seq<string>)
    ensures |names| <= |info|
  {
    if info == [] then []
    else (if info[0].inGame then [info[0].playerName] else []) + InGameNames(info[1..])
  }

  /** The name list is exactly the names of entries marked in game. */
  lemma {:induction false} InGameNamesMembers(info: seq<PlayerInfo>, n: string)
    ensures n in InGameNames(info) <==>
            exists i :: 0 <= i < |info| && info[i].inGame && info[i].playerName == n
  {
    if info != [] {
      InGameNamesMembers(info[1..], n);
      if n in InGameNames(info[1..]) {
        var i :| 0 <= i < |info[1..]| && info[1..][i].inGame && info[1..][i].playerName == n;
        assert info[i + 1] == info[1..][i];
      }
      if exists i :: 0 <= i < |info| && info[i].inGame && info[i].playerName == n {
        var i :| 0 <= i < |info| && info[i].inGame && info[i].playerName == n;
        if i > 0 {
          assert info[1..][i - 1] == info[i];
        }
      }
    }
  }

  /** The filter keeps snapshot order: filtering a concatenation concatenates the filtered parts. */
  lemma {:induction false} InGameNamesAppend(a: seq<PlayerInfo>, b: seq<PlayerInfo>)
    ensures InGameNames(a + b) == InGameNames(a) + InGameNames(b)
  {
    if a == [] {
      assert a + b == b;
    } else {
      var head := if a[0].inGame then [a[0].playerName] else [];
      assert (a + b)[0] == a[0];
      assert (a + b)[1..] == a[1..] + b;
      InGameNamesAppend(a[1..], b);
      calc {
        InGameNames(a + b);
        head + InGameNames(a[1..] + b);
        head + (InGameNames(a[1..]) + InGameNames(b));
        (head + InGameNames(a[1..])) + InGameNames(b);
      }
    }
  }

  /** No element occurs twice. */
  predicate Distinct<T(==)>(s: seq<T>)
  {
    forall i, j :: 0 <= i < j < |s| ==> s[i] != s[j]
  }

  /** No player name occurs twice in a snapshot. */
  predicate DistinctNames(info: seq<PlayerInfo>)
  {
    forall i, j :: 0 <= i < j < |info| ==> info[i].playerName != info[j].playerName
  }

  /** Filtering a snapshot with distinct names gives a list with distinct names. */
  lemma {:induction false} InGameNamesDistinct(info: seq<PlayerInfo>)
    requires DistinctNames(info)
    ensures Distinct(InGameNames(info))
  {
    if info != [] {
      var tail := InGameNames(info[1..]);
      InGameNamesDistinct(info[1..]);
      if info[0].inGame {
        InGameNamesMembers(info[1..], info[0].playerName);
        assert info[0].playerName !in tail by {
          forall i | 0 <= i < |info[1..]|
            ensures !(info[1..][i].inGame && info[1..][i].playerName == info[0].playerName)
          {
            assert info[1..][i] == info[i + 1];
          }
        }
        var names := [info[0].playerName] + tail;
        forall i, j | 0 <= i < j < |names| ensures names[i] != names[j] {
          if i == 0 {
            assert names[j] == tail[j - 1];
          } else {
            assert names[i] == tail[i - 1] && names[j] == tail[j - 1];
          }
        }
      } else {
        assert InGameNames(info) == tail;
      }
    }
  }

  /** Python's `set(s)`. */
  function Elems<T>(s: seq<T>): set<T>
  {
    set x | x in s
  }

  /** A set built from a list has at most as many elements as the list. */
  lemma {:induction false} ElemsCardinality(s: seq<string>)
    ensures |Elems(s)| <= |s|
  {
    if s != [] {
      ElemsCardinality(s[1..]);
      assert Elems(s) == {s[0]} + Elems(s[1..]);
    }
  }

  /** A set built from a list without repetitions has exactly as many elements as the list. */
  lemma {:induction false} ElemsCardinalityDistinct(s: seq<string>)
    requires Distinct(s)
    ensures |Elems(s)| == |s|
  {
    if s != [] {
      assert Distinct(s[1..]) by {
        forall i, j | 0 <= i < j < |s[1..]| ensures s[1..][i] != s[1..][j] {
          assert s[1..][i] == s[i + 1] && s[1..][j] == s[j + 1];
        }
      }
      ElemsCardinalityDistinct(s[1..]);
      assert s[0] !in Elems(s[1..]) by {
        forall k | 0 <= k < |s[1..]| ensures s[1..][k] != s[0] {
          assert s[1..][k] == s[k + 1];
        }
      }
      assert Elems(s) == {s[0]} + Elems(s[1..]);
    }
  }

  /** What the length-based rule of `server_loop` sees when it compares the previous roster
      with the new in-game list: a longer list is a join, a shorter one a leave, and the
      candidates to report are the matching set difference. */
  datatype RosterChange = Joining(joined: set<string>) | Leaving(left: set<string>) | SameLength

  function Diff(online: seq<string>, current: seq<string>): (c: RosterChange)
    ensures c.Joining? <==> |current| > |online|
    ensures c.Leaving? <==> |current| < |online|
    ensures c.Joining? ==> forall n :: n in c.joined <==> n in current && n !in online
    ensures c.Leaving? ==> forall n :: n in c.left <==> n in online && n !in current
  {
    if |current| > |online| then Joining(Elems(current) - Elems(online))
    else if |current| < |online| then Leaving(Elems(online) - Elems(current))
    else SameLength
  }

  /** A longer list without repeated names always has a newcomer to report, whatever the
      previous roster held, so `list(...)[0]` cannot fail on a join. */
  lemma JoinerExists(online: seq<string>, current: seq<string>)
    requires Distinct(current)
    requires |current| > |online|
    ensures Diff(online, current).Joining?
    ensures Diff(online, current).joined != {}
  {
    ElemsCardinalityDistinct(current);
    ElemsCardinality(online);
    if Elems(current) - Elems(online) == {} {
      forall x | x in Elems(current) ensures x in Elems(online) {
        assert x !in Elems(current) - Elems(online);
      }
      SubsetCardinality(Elems(current), Elems(online));
      assert false;
    }
  }

  /** A shorter list, after a roster without repeated names, always has a leaver to report. */
  lemma LeaverExists(online: seq<string>, current: seq<string>)
    requires Distinct(online)
    requires |current| < |online|
    ensures Diff(online, current).Leaving?
    ensures Diff(online, current).left != {}
  {
    ElemsCardinalityDistinct(online);
    ElemsCardinality(current);
    if Elems(online) - Elems(current) == {} {
      forall x | x in Elems(online) ensures x in Elems(current) {
        assert x !in Elems(online) - Elems(current);
      }
      SubsetCardinality(Elems(online), Elems(current));
      assert false;
    }
  }

  lemma SubsetCardinality(a: set<string>, b: set<string>)
    requires a <= b
    ensures |a| <= |b|
  {
    assert b == a + (b - a);
  }

  /** One poll against the previous roster: with distinct names on both sides, a change of
      length always has someone to report, so the `[0]` lookup cannot fail. */
  lemma {:induction false} ReportableWhenDistinct(online: seq<string>, info: seq<PlayerInfo>)
    requires Distinct(online) && DistinctNames(info)
    ensures Distinct(InGameNames(info))
    ensures Diff(online, InGameNames(info)).Joining? ==> Diff(online, InGameNames(info)).joined != {}
    ensures Diff(online, InGameNames(info)).Leaving? ==> Diff(online, InGameNames(info)).left != {}
  {
    var current := InGameNames(info);
    InGameNamesDistinct(info);
    if |current| > |online| {
      JoinerExists(online, current);
    } else if |current| < |online| {
      LeaverExists(online, current);
    }
  }

  /** Equal lengths are never reported, even when a player was swapped for another. */
  lemma SwapIsNotReported()
    ensures Diff(["A"], ["B"]) == SameLength
  {
  }

  /** With a repeated name the join rule finds nothing to report: the source then indexes
      an empty list. */
  lemma RepeatedNameLeavesNothingToReport()
    ensures Diff(["A"], ["A", "A"]) == Joining({})
  {
    assert Elems(["A", "A"]) == {"A"};
    assert Elems(["A"]) == {"A"};
  }
}
