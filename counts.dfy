/**
 * The counts the pull command reports after the skip pass: per kind, the
 * length of each user's list and the sum of those lengths; per user, the
 * six lengths (0 for a user the table lacks) and their sum.
 */
module Counts {
  import opened Records

  /** `table.iter().map(|(k, v)| (k, v.len())).collect()`. */
  function Lengths<T>(m: map<string, seq<T>>): (c: map<string, nat>)
    ensures c.Keys == m.Keys
    ensures forall k :: k in m ==> c[k] == |m[k]|
  {
    map k | k in m :: |m[k]|
  }

  /** `counts.values().sum()`: the sum of a map's values, in whatever order. */
  ghost function Total(c: map<string, nat>): nat
    decreases c.Keys
  {
    if c == map[] then 0
    else
      var k :| k in c;
      c[k] + Total(c - {k})
  }

  /** The sum does not depend on the order: any key can be taken out first. */
  lemma {:induction false} TotalWithout(c: map<string, nat>, k: string)
    requires k in c
    ensures Total(c) == c[k] + Total(c - {k})
    decreases c.Keys
  {
    var j :| j in c && Total(c) == c[j] + Total(c - {j});
    if j != k {
      TotalWithout(c - {j}, k);
      TotalWithout(c - {k}, j);
      assert c - {j} - {k} == c - {k} - {j};
    }
  }

  /** `count.get(user).unwrap_or(&0)`. */
  function CountOf(c: map<string, nat>, user: string): nat {
    if user in c then c[user] else 0
  }

  /** The counts of the listed users, added up in list order. */
  function SumOver(c: map<string, nat>, users: seq<string>): nat {
    if users == [] then 0 else CountOf(c, users[0]) + SumOver(c, users[1..])
  }

  predicate Distinct(users: seq<string>) {
    forall i, j :: 0 <= i < j < |users| ==> users[i] != users[j]
  }

  lemma {:induction false} SumOverIgnores(c: map<string, nat>, users: seq<string>, u: string)
    requires u !in users
    ensures SumOver(c - {u}, users) == SumOver(c, users)
    decreases |users|
  {
    if users != [] {
      SumOverIgnores(c, users[1..], u);
    }
  }

  /**
   * A kind's total is the sum, over the configured users, of their counts,
   * when the users are distinct and the table holds no other user.
   */
  lemma {:induction false} TotalIsSumOverUsers(c: map<string, nat>, users: seq<string>)
    requires Distinct(users)
    requires forall k :: k in c ==> k in users
    ensures Total(c) == SumOver(c, users)
    decreases |users|
  {
    if users == [] {
      assert c == map[];
    } else {
      var u := users[0];
      assert Distinct(users[1..]);
      assert u !in users[1..];
      if u in c {
        TotalWithout(c, u);
        TotalIsSumOverUsers(c - {u}, users[1..]);
        SumOverIgnores(c, users[1..], u);
      } else {
        TotalIsSumOverUsers(c, users[1..]);
      }
    }
  }

  /** The six counts of one user, in the order the program prints them. */
  datatype UserCounts = UserCounts(vods: nat, highlights: nat, premieres: nat, uploads: nat, clips: nat, chat: nat)

  const NoCounts := UserCounts(0, 0, 0, 0, 0, 0)

  /** The counts of one user: the length of their list in each table, 0 where there is none. */
  function CountsOf(cat: Catalogue, user: string): UserCounts {
    UserCounts(
      CountOf(Lengths(cat.vods), user),
      CountOf(Lengths(cat.highlights), user),
      CountOf(Lengths(cat.premieres), user),
      CountOf(Lengths(cat.uploads), user),
      CountOf(Lengths(cat.clips), user),
      CountOf(Lengths(cat.chat), user))
  }

  function UserTotal(c: UserCounts): nat {
    c.vods + c.highlights + c.premieres + c.uploads + c.clips + c.chat
  }

  /** The `counts` map: each configured user to their six counts. */
  function CountsTable(cat: Catalogue, users: seq<string>): (t: map<string, UserCounts>)
    ensures forall u :: u in t <==> u in users
    ensures forall u :: u in users ==> t[u] == CountsOf(cat, u)
  {
    map u | u in users :: CountsOf(cat, u)
  }

  /** A user's total is zero exactly when every one of their six lists is empty or absent. */
  lemma UserIdle(cat: Catalogue, user: string)
    ensures UserTotal(CountsOf(cat, user)) == 0 <==>
      && (user in cat.vods ==> cat.vods[user] == [])
      && (user in cat.highlights ==> cat.highlights[user] == [])
      && (user in cat.premieres ==> cat.premieres[user] == [])
      && (user in cat.uploads ==> cat.uploads[user] == [])
      && (user in cat.clips ==> cat.clips[user] == [])
      && (user in cat.chat ==> cat.chat[user] == [])
  {
    NoneCounted(cat.vods, user);
    NoneCounted(cat.highlights, user);
    NoneCounted(cat.premieres, user);
    NoneCounted(cat.uploads, user);
    NoneCounted(cat.clips, user);
    NoneCounted(cat.chat, user);
  }

  lemma NoneCounted<T>(m: map<string, seq<T>>, user: string)
    ensures CountOf(Lengths(m), user) == 0 <==> (user in m ==> m[user] == [])
  {
  }

  /** `total_total`: the six per-kind totals added together. */
  ghost function GrandTotal(cat: Catalogue): nat {
    Total(Lengths(cat.vods)) + Total(Lengths(cat.highlights)) + Total(Lengths(cat.premieres))
      + Total(Lengths(cat.uploads)) + Total(Lengths(cat.clips)) + Total(Lengths(cat.chat))
  }

  /** The users' totals added up in list order. */
  function SumOfUserTotals(cat: Catalogue, users: seq<string>): nat {
    if users == [] then 0 else UserTotal(CountsOf(cat, users[0])) + SumOfUserTotals(cat, users[1..])
  }

  lemma {:induction false} SumOfUserTotalsByKind(cat: Catalogue, users: seq<string>)
    ensures SumOfUserTotals(cat, users) ==
      SumOver(Lengths(cat.vods), users) + SumOver(Lengths(cat.highlights), users)
      + SumOver(Lengths(cat.premieres), users) + SumOver(Lengths(cat.uploads), users)
      + SumOver(Lengths(cat.clips), users) + SumOver(Lengths(cat.chat), users)
    decreases |users|
  {
    if users != [] {
      SumOfUserTotalsByKind(cat, users[1..]);
    }
  }

  /** The tables hold no user outside the list. */
  predicate OnlyUsers(cat: Catalogue, users: seq<string>) {
    && (forall k :: k in cat.vods ==> k in users)
    && (forall k :: k in cat.highlights ==> k in users)
    && (forall k :: k in cat.premieres ==> k in users)
    && (forall k :: k in cat.uploads ==> k in users)
    && (forall k :: k in cat.clips ==> k in users)
    && (forall k :: k in cat.chat ==> k in users)
  }

  /**
   * The grand total is the sum of the users' totals when the configured
   * users are distinct and every table is keyed by them alone.
   */
  lemma GrandTotalIsSumOfUserTotals(cat: Catalogue, users: seq<string>)
    requires Distinct(users)
    requires OnlyUsers(cat, users)
    ensures GrandTotal(cat) == SumOfUserTotals(cat, users)
  {
    var vods := KindTotal(cat.vods, users);
    var highlights := KindTotal(cat.highlights, users);
    var premieres := KindTotal(cat.premieres, users);
    var uploads := KindTotal(cat.uploads, users);
    var clips := KindTotal(cat.clips, users);
    var chat := KindTotal(cat.chat, users);
    SumOfUserTotalsByKind(cat, users);
  }

  /** One kind's total, and, when only the distinct listed users have lists, its sum over them. */
  lemma KindTotal<T>(m: map<string, seq<T>>, users: seq<string>) returns (total: nat)
    ensures total == Total(Lengths(m))
    ensures Distinct(users) && (forall k :: k in m ==> k in users) ==> total == SumOver(Lengths(m), users)
  {
    if Distinct(users) && forall k :: k in m ==> k in users {
      TotalIsSumOverUsers(Lengths(m), users);
    }
    total := Total(Lengths(m));
  }
}
