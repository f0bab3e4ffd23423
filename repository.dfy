/** What the service asks of its repositories, stated by the semantics of the
    queries it calls: lookups by id, existence checks, filtered scans in
    store order, a scan sorted descending by one column, and the slice of
    one page. The order of a sequence stands for the store's own order. */
module Repository {
  import opened Domain

  /** The three repositories the service reads: users (in `findAll` order),
      courses (in store order) and the (user, course) scrap pairs. */
  datatype Store = Store(users: seq<User>, courses: seq<Course>, scraps: set<(UserId, CourseId)>)

  /** `findById` of a repository: the first entity whose id (as `idOf`
      reads it) is `id`, or none. Both `userRepository.findById` and
      `userCourseRepository.findById` are this lookup. */
  function Lookup<T>(s: seq<T>, idOf: T -> int, id: int): (r: Option<T>)
    ensures r.None? <==> forall k :: 0 <= k < |s| ==> idOf(s[k]) != id
    ensures r.Some? ==>
      idOf(r.value) == id && exists k :: 0 <= k < |s| && s[k] == r.value
  {
    if |s| == 0 then None
    else if idOf(s[0]) == id then Some(s[0])
    else
      var r := Lookup(s[1..], idOf, id);
      assert forall k :: 0 <= k < |s| - 1 ==> s[1..][k] == s[k + 1];
      r
  }

  /** `userRepository.findById`. */
  function FindUser(users: seq<User>, id: UserId): Option<User>
  {
    Lookup(users, (u: User) => u.id, id)
  }

  /** `userCourseRepository.findById`. */
  function FindCourse(courses: seq<Course>, id: CourseId): Option<Course>
  {
    Lookup(courses, (c: Course) => c.id, id)
  }

  /** `userCourseRepository.existsByUser`: the user owns at least one course. */
  predicate ExistsByUser(courses: seq<Course>, owner: UserId)
  {
    exists k :: 0 <= k < |courses| && courses[k].owner.id == owner
  }

  /** `scrapRepository.existsScrapByUserAndUserCourse`. */
  predicate ExistsScrap(scraps: set<(UserId, CourseId)>, user: UserId, course: CourseId)
  {
    (user, course) in scraps
  }

  /** `findAllByUser`: the courses of one owner, in store order. */
  function CoursesOf(courses: seq<Course>, owner: UserId): (r: seq<Course>)
    ensures |r| <= |courses|
    ensures forall c :: c in r <==> c in courses && c.owner.id == owner
  {
    if |courses| == 0 then []
    else
      var rest := CoursesOf(courses[1..], owner);
      if courses[0].owner.id == owner then [courses[0]] + rest else rest
  }

  /** An owner's scan is empty exactly when the owner has no course. */
  lemma CoursesOfEmpty(courses: seq<Course>, owner: UserId)
    ensures CoursesOf(courses, owner) == [] <==> !ExistsByUser(courses, owner)
  {
  }

  /** `findAllBySidoOrSgg`: the courses whose region OR sub-region matches,
      in store order. */
  function BySidoOrSgg(courses: seq<Course>, sido: string, sgg: string): (r: seq<Course>)
    ensures |r| <= |courses|
    ensures forall c :: c in r <==> c in courses && (c.sido == sido || c.sgg == sgg)
  {
    if |courses| == 0 then []
    else
      var rest := BySidoOrSgg(courses[1..], sido, sgg);
      if courses[0].sido == sido || courses[0].sgg == sgg then [courses[0]] + rest else rest
  }

  // ---------------------------------------------------------------------
  // Sorted scan

  /** The column a `Sort.by(DESC, ...)` request orders by. */
  datatype SortColumn = ScrapCount | CreatedAt

  function Key(c: Course, col: SortColumn): int
  {
    match col
    case ScrapCount => c.scrapCount
    case CreatedAt => c.createdAt
  }

  ghost predicate SortedDesc(s: seq<Course>, col: SortColumn)
  {
    forall i, j :: 0 <= i < j < |s| ==> Key(s[i], col) >= Key(s[j], col)
  }

  /** Places `x` in front of the first element whose key does not exceed its own. */
  function Insert(x: Course, s: seq<Course>, col: SortColumn): (r: seq<Course>)
    ensures multiset(r) == multiset(s) + multiset{x}
  {
    if |s| == 0 || Key(s[0], col) <= Key(x, col) then
      [x] + s
    else
      assert s == [s[0]] + s[1..];
      [s[0]] + Insert(x, s[1..], col)
  }

  /** Inserting under a common upper bound keeps every key under it. */
  lemma {:induction false} InsertBounded(x: Course, s: seq<Course>, col: SortColumn, bound: int)
    requires Key(x, col) <= bound
    requires forall k :: 0 <= k < |s| ==> Key(s[k], col) <= bound
    ensures forall k :: 0 <= k < |Insert(x, s, col)| ==> Key(Insert(x, s, col)[k], col) <= bound
  {
    if |s| > 0 && Key(s[0], col) > Key(x, col) {
      InsertBounded(x, s[1..], col, bound);
    }
  }

  /** Inserting into a sorted scan keeps it sorted. */
  lemma {:induction false} InsertSorted(x: Course, s: seq<Course>, col: SortColumn)
    requires SortedDesc(s, col)
    ensures SortedDesc(Insert(x, s, col), col)
  {
    var r := Insert(x, s, col);
    if |s| == 0 || Key(s[0], col) <= Key(x, col) {
      assert forall j :: 0 < j < |r| ==> r[j] == s[j - 1];
    } else {
      var rest := Insert(x, s[1..], col);
      InsertSorted(x, s[1..], col);
      InsertBounded(x, s[1..], col, Key(s[0], col));
      assert forall j :: 0 < j < |r| ==> r[j] == rest[j - 1];
    }
  }

  /** The store's scan ordered descending by `col`. Equal keys keep the
      store's order (the sort is stable). */
  function SortDesc(s: seq<Course>, col: SortColumn): (r: seq<Course>)
    ensures multiset(r) == multiset(s)
    ensures SortedDesc(r, col)
  {
    if |s| == 0 then []
    else
      assert s == [s[0]] + s[1..];
      InsertSorted(s[0], SortDesc(s[1..], col), col);
      Insert(s[0], SortDesc(s[1..], col), col)
  }

  // ---------------------------------------------------------------------
  // Paging

  /** `PageRequest.of(page, size)` applied to a scan: the zero-based page
      `page` of `size` items; a page past the end is empty. */
  function Page(s: seq<Course>, page: nat, size: nat): (r: seq<Course>)
    ensures |r| <= size
    ensures |r| == if page * size >= |s| then 0
                   else if |s| - page * size < size then |s| - page * size
                   else size
    ensures forall i :: 0 <= i < |r| ==> r[i] == s[page * size + i]
  {
    if page * size >= |s| then []
    else if (page + 1) * size <= |s| then s[page * size .. (page + 1) * size]
    else s[page * size ..]
  }

  /** Every item of a scan is on the page its index gives, at the position
      its index gives: paging skips nothing. */
  lemma ItemOnPage(s: seq<Course>, size: nat, i: nat)
    requires size > 0 && i < |s|
    ensures i % size < |Page(s, i / size, size)|
    ensures Page(s, i / size, size)[i % size] == s[i]
  {
  }

  /** A page of a sorted scan is itself sorted. */
  lemma PageOfSorted(s: seq<Course>, page: nat, size: nat, col: SortColumn)
    requires SortedDesc(s, col)
    ensures SortedDesc(Page(s, page, size), col)
  {
  }
}
