/** The creator leaderboard `getTop3User`: three running slots updated by a
    replace-without-demote cascade while walking the users in store order.
    The cascade is modelled as written; it is not a correct top-3 selection. */
module Leaderboard {
  import opened Domain
  import opened Repository

  /** The exact sum of the scrap counts of `cs`. */
  function ScrapSum(cs: seq<Course>): int
  {
    if |cs| == 0 then 0 else ScrapSum(cs[..|cs| - 1]) + cs[|cs| - 1].scrapCount
  }

  /** A user's `localscrap`: the sum of the scrap counts of the user's
      courses, in Java `int`. */
  function Total(courses: seq<Course>, u: User): int
  {
    Wrap32(ScrapSum(CoursesOf(courses, u.id)))
  }

  /** One running slot: its best total so far and the user holding it
      (`None` stands for the initial `null`). */
  datatype Slot = Slot(scrap: int, user: Option<User>)

  /** The three slots `scrap1/user1`, `scrap2/user2`, `scrap3/user3`. */
  datatype Board = Board(first: Slot, second: Slot, third: Slot)

  const EmptyBoard: Board := Board(Slot(0, None), Slot(0, None), Slot(0, None))

  ghost predicate Ordered(b: Board)
  {
    0 <= b.third.scrap <= b.second.scrap <= b.first.scrap
  }

  /** One step of the cascade for user `u` with total `total`: the first slot
      it strictly beats is overwritten; the previous occupant is dropped,
      not moved down. */
  function Place(b: Board, u: User, total: int): (r: Board)
    ensures Ordered(b) ==> Ordered(r)
    ensures r.first.scrap >= b.first.scrap && r.second.scrap >= b.second.scrap && r.third.scrap >= b.third.scrap
    ensures r.first != b.first ==> r.second == b.second && r.third == b.third
    ensures r.second != b.second ==> r.first == b.first && r.third == b.third && total <= b.first.scrap
    ensures r.third != b.third ==>
      r.first == b.first && r.second == b.second && total <= b.first.scrap && total <= b.second.scrap
    ensures r != b <==> total > b.first.scrap || total > b.second.scrap || total > b.third.scrap
  {
    if total > b.first.scrap then b.(first := Slot(total, Some(u)))
    else if total > b.second.scrap then b.(second := Slot(total, Some(u)))
    else if total > b.third.scrap then b.(third := Slot(total, Some(u)))
    else b
  }

  /** The slots after the loop has visited `users` in order. */
  function Aggregate(courses: seq<Course>, users: seq<User>): Board
  {
    if |users| == 0 then EmptyBoard
    else
      var last := users[|users| - 1];
      Place(Aggregate(courses, users[..|users| - 1]), last, Total(courses, last))
  }

  // ---------------------------------------------------------------------
  // The service method

  /** The inner loop of `getTop3User` over `findAllByUser(u)`:
      `localscrap += c.getScrapCount()`, in Java `int`. */
  method LocalScrap(courses: seq<Course>, u: User) returns (localscrap: int)
    ensures localscrap == Total(courses, u)
    ensures INT_MIN <= ScrapSum(CoursesOf(courses, u.id)) <= INT_MAX ==>
      localscrap == ScrapSum(CoursesOf(courses, u.id))
  {
    var cs := CoursesOf(courses, u.id);
    localscrap := 0;
    for i := 0 to |cs|
      invariant localscrap == Wrap32(ScrapSum(cs[..i]))
    {
      assert cs[..i + 1][..i] == cs[..i];
      WrapAdd(ScrapSum(cs[..i]), cs[i].scrapCount);
      localscrap := Wrap32(localscrap + cs[i].scrapCount);
    }
    assert cs[..|cs|] == cs;
  }

  /** The user loop of `getTop3User`: the six running variables after
      visiting `userList` in order are exactly the cascade's slots. */
  method RankUsers(courses: seq<Course>, userList: seq<User>)
    returns (scrap1: int, scrap2: int, scrap3: int, user1: Option<User>, user2: Option<User>, user3: Option<User>)
    ensures Board(Slot(scrap1, user1), Slot(scrap2, user2), Slot(scrap3, user3)) == Aggregate(courses, userList)
  {
    scrap1, scrap2, scrap3 := 0, 0, 0;
    user1, user2, user3 := None, None, None;
    for i := 0 to |userList|
      invariant Board(Slot(scrap1, user1), Slot(scrap2, user2), Slot(scrap3, user3)) ==
        Aggregate(courses, userList[..i])
    {
      assert userList[..i + 1][..i] == userList[..i];
      var u := userList[i];
      var localscrap := LocalScrap(courses, u);
      if localscrap > scrap1 {
        scrap1 := localscrap;
        user1 := Some(u);
      } else if localscrap > scrap2 {
        scrap2 := localscrap;
        user2 := Some(u);
      } else if localscrap > scrap3 {
        scrap3 := localscrap;
        user3 := Some(u);
      }
    }
    assert userList[..|userList|] == userList;
  }

  /** `getTop3User()`: the three slot holders in slot order, or the null
      dereference of the DTO mapping when any slot is still empty. */
  method GetTop3User(store: Store) returns (r: Result<seq<UserDto>>)
    ensures var b := Aggregate(store.courses, store.users);
      (r.Ok? <==> b.first.user.Some? && b.second.user.Some? && b.third.user.Some?) &&
      (r.Ok? ==> r.value == [ToUserDto(b.first.user.value), ToUserDto(b.second.user.value),
                             ToUserDto(b.third.user.value)]) &&
      (r.Err? ==> r.error == NullUser)
  {
    var userList := store.users;
    var scrap1, scrap2, scrap3, user1, user2, user3 := RankUsers(store.courses, userList);
    var topUserList := [user1, user2, user3];
    r := ToUserDtos(topUserList);
    assert r.Ok? <==> topUserList[0].Some? && topUserList[1].Some? && topUserList[2].Some?;
    if r.Ok? {
      assert r.value[0] == ToUserDto(user1.value) && r.value[1] == ToUserDto(user2.value) &&
        r.value[2] == ToUserDto(user3.value);
    }
  }

  /** The DTO loop of `getTop3User`: `u.getId()` on a null slot throws. */
  method ToUserDtos(topUserList: seq<Option<User>>) returns (r: Result<seq<UserDto>>)
    ensures r.Ok? <==> forall k :: 0 <= k < |topUserList| ==> topUserList[k].Some?
    ensures r.Ok? ==>
      |r.value| == |topUserList| &&
      forall k :: 0 <= k < |topUserList| ==> r.value[k] == ToUserDto(topUserList[k].value)
    ensures r.Err? ==> r.error == NullUser
  {
    var list: seq<UserDto> := [];
    for j := 0 to |topUserList|
      invariant |list| == j
      invariant forall k :: 0 <= k < j ==> topUserList[k].Some? && list[k] == ToUserDto(topUserList[k].value)
    {
      var u := topUserList[j];
      if u.None? {
        return Err(NullUser);
      }
      list := list + [ToUserDto(u.value)];
    }
    return Ok(list);
  }

  // ---------------------------------------------------------------------
  // What the cascade guarantees, and what it does not

  /** Throughout the loop the slot totals stay ordered and non-negative. */
  lemma {:induction false} AggregateOrdered(courses: seq<Course>, users: seq<User>)
    ensures Ordered(Aggregate(courses, users))
  {
    if |users| > 0 {
      AggregateOrdered(courses, users[..|users| - 1]);
    }
  }

  /** A slot holds a user exactly when its total is positive; the holder is
      one of the users and the slot's total is that user's total. So a user
      whose total is 0 (or negative) is never placed. */
  ghost predicate Held(s: Slot, courses: seq<Course>, users: seq<User>)
  {
    (s.user.Some? <==> s.scrap > 0) &&
    (s.user.Some? ==> s.user.value in users && Total(courses, s.user.value) == s.scrap)
  }

  lemma {:induction false} AggregateHeld(courses: seq<Course>, users: seq<User>)
    ensures var b := Aggregate(courses, users);
      Held(b.first, courses, users) && Held(b.second, courses, users) && Held(b.third, courses, users)
  {
    if |users| > 0 {
      var pre := users[..|users| - 1];
      AggregateHeld(courses, pre);
      AggregateOrdered(courses, pre);
      assert forall u :: u in pre ==> u in users;
    }
  }

  /** The first slot holds the largest total, or 0 when no total is positive. */
  lemma {:induction false} AggregateMax(courses: seq<Course>, users: seq<User>)
    ensures forall k :: 0 <= k < |users| ==> Total(courses, users[k]) <= Aggregate(courses, users).first.scrap
  {
    if |users| > 0 {
      var n := |users| - 1;
      AggregateMax(courses, users[..n]);
      assert forall k :: 0 <= k < n ==> users[..n][k] == users[k];
    }
  }

  /** The first user in iteration order to reach the largest total holds the
      first slot: the comparison is strict, so a later tie does not take it. */
  lemma {:induction false} AggregateLeader(courses: seq<Course>, users: seq<User>)
    ensures var b := Aggregate(courses, users);
      b.first.scrap > 0 ==>
        exists k :: 0 <= k < |users| && b.first.user == Some(users[k]) &&
          Total(courses, users[k]) == b.first.scrap &&
          forall j :: 0 <= j < k ==> Total(courses, users[j]) < b.first.scrap
  {
    if |users| > 0 {
      var n := |users| - 1;
      var pre := users[..n];
      var b0 := Aggregate(courses, pre);
      var b := Aggregate(courses, users);
      var t := Total(courses, users[n]);
      assert forall k :: 0 <= k < n ==> pre[k] == users[k];
      if t > b0.first.scrap {
        AggregateMax(courses, pre);
        assert b.first == Slot(t, Some(users[n]));
        assert forall j :: 0 <= j < n ==> Total(courses, users[j]) < b.first.scrap;
      } else {
        AggregateLeader(courses, pre);
        assert b.first == b0.first;
        if b.first.scrap > 0 {
          var k :| 0 <= k < n && b0.first.user == Some(pre[k]) &&
            Total(courses, pre[k]) == b0.first.scrap &&
            forall j :: 0 <= j < k ==> Total(courses, pre[j]) < b0.first.scrap;
          assert users[k] == pre[k];
        }
      }
    }
  }

  /** Each user writes at most one slot, so when the users are distinct the
      filled slots hold distinct users. */
  lemma {:induction false} AggregateDistinct(courses: seq<Course>, users: seq<User>)
    requires forall i, j :: 0 <= i < j < |users| ==> users[i].id != users[j].id
    ensures var b := Aggregate(courses, users);
      (b.first.user.Some? && b.second.user.Some? ==> b.first.user != b.second.user) &&
      (b.first.user.Some? && b.third.user.Some? ==> b.first.user != b.third.user) &&
      (b.second.user.Some? && b.third.user.Some? ==> b.second.user != b.third.user)
  {
    if |users| > 0 {
      var n := |users| - 1;
      var pre := users[..n];
      assert forall i, j :: 0 <= i < j < |pre| ==> pre[i].id != pre[j].id by {
        assert forall k :: 0 <= k < n ==> pre[k] == users[k];
      }
      AggregateDistinct(courses, pre);
      AggregateHeld(courses, pre);
      assert users[n] !in pre;
    }
  }

  /** Number of users (counted by position) whose total is positive. */
  function CountPositive(courses: seq<Course>, users: seq<User>): nat
  {
    if |users| == 0 then 0
    else CountPositive(courses, users[..|users| - 1]) + if Total(courses, users[|users| - 1]) > 0 then 1 else 0
  }

  function Filled(b: Board): nat
  {
    (if b.first.user.Some? then 1 else 0) + (if b.second.user.Some? then 1 else 0) +
    (if b.third.user.Some? then 1 else 0)
  }

  /** Only a positive total fills an empty slot, and each step fills at most one. */
  lemma {:induction false} FilledAtMostPositive(courses: seq<Course>, users: seq<User>)
    ensures Filled(Aggregate(courses, users)) <= CountPositive(courses, users)
  {
    if |users| > 0 {
      var pre := users[..|users| - 1];
      FilledAtMostPositive(courses, pre);
      AggregateOrdered(courses, pre);
      AggregateHeld(courses, pre);
    }
  }

  /** With fewer than three users of positive total (an empty store among
      them) some slot stays null, so `getTop3User` fails instead of
      returning null entries. */
  lemma FewerThanThreeLeavesNull(courses: seq<Course>, users: seq<User>)
    requires CountPositive(courses, users) < 3
    ensures var b := Aggregate(courses, users);
      b.first.user.None? || b.second.user.None? || b.third.user.None?
  {
    FilledAtMostPositive(courses, users);
  }

  /** The four users and four courses of the displaced-leader scenario. */
  const ExampleA: User := User(1, "A", "")
  const ExampleB: User := User(2, "B", "")
  const ExampleC: User := User(3, "C", "")
  const ExampleD: User := User(4, "D", "")
  const ExampleCourses: seq<Course> := [
    Course(10, "", "", "", "", "", 0, "", 0, 10, ExampleA), Course(20, "", "", "", "", "", 0, "", 0, 30, ExampleB),
    Course(30, "", "", "", "", "", 0, "", 0, 20, ExampleC), Course(40, "", "", "", "", "", 0, "", 0, 5, ExampleD)]

  /** Each user of the scenario owns exactly one course. */
  lemma ExampleTotals()
    ensures Total(ExampleCourses, ExampleA) == 10 && Total(ExampleCourses, ExampleB) == 30
    ensures Total(ExampleCourses, ExampleC) == 20 && Total(ExampleCourses, ExampleD) == 5
  {
    var cs := ExampleCourses;
    var ca, cb, cc, cd := cs[0], cs[1], cs[2], cs[3];
    assert [cd][1..] == [] && [cc, cd][1..] == [cd] && [cb, cc, cd][1..] == [cc, cd] && cs[1..] == [cb, cc, cd];
    assert CoursesOf([cd], 1) == [];
    assert CoursesOf([cc, cd], 1) == [];
    assert CoursesOf([cb, cc, cd], 1) == [];
    assert CoursesOf(cs, 1) == [ca];
    assert CoursesOf([cd], 2) == [];
    assert CoursesOf([cc, cd], 2) == [];
    assert CoursesOf([cb, cc, cd], 2) == [cb];
    assert CoursesOf(cs, 2) == [cb];
    assert CoursesOf([cd], 3) == [];
    assert CoursesOf([cc, cd], 3) == [cc];
    assert CoursesOf([cb, cc, cd], 3) == [cc];
    assert CoursesOf(cs, 3) == [cc];
    assert CoursesOf([cd], 4) == [cd];
    assert CoursesOf([cc, cd], 4) == [cd];
    assert CoursesOf([cb, cc, cd], 4) == [cd];
    assert CoursesOf(cs, 4) == [cd];
    assert ScrapSum([ca]) == 10 && ScrapSum([cb]) == 30 && ScrapSum([cc]) == 20 && ScrapSum([cd]) == 5;
  }

  /** Displaced leaders are not demoted: users with totals A=10, B=30, C=20,
      D=5, visited in that order, leave B(30), C(20), D(5) in the slots and A
      in none, although A's total beats D's. */
  lemma DisplacedLeaderIsLost()
    ensures Aggregate(ExampleCourses, [ExampleA, ExampleB, ExampleC, ExampleD]) ==
      Board(Slot(30, Some(ExampleB)), Slot(20, Some(ExampleC)), Slot(5, Some(ExampleD)))
    ensures Total(ExampleCourses, ExampleA) > Total(ExampleCourses, ExampleD)
  {
    ExampleTotals();
    var a, b, c, d := ExampleA, ExampleB, ExampleC, ExampleD;
    var users := [a, b, c, d];
    assert users[..3] == [a, b, c] && [a, b, c][..2] == [a, b] && [a, b][..1] == [a] && [a][..0] == [];
    assert Aggregate(ExampleCourses, [a]) == Board(Slot(10, Some(a)), Slot(0, None), Slot(0, None));
    assert Aggregate(ExampleCourses, [a, b]) == Board(Slot(30, Some(b)), Slot(0, None), Slot(0, None));
    assert Aggregate(ExampleCourses, [a, b, c]) == Board(Slot(30, Some(b)), Slot(20, Some(c)), Slot(0, None));
  }
}
