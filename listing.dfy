/** The listing operations of the user-course service: the general sorted
    listing, the area listing, the caller's own listing and the detail
    view. The caller's id is an explicit parameter. */
module Listing {
  import opened Domain
  import opened Repository

  /** Page size of the general and area listings. */
  const PAGE_SIZE: nat := 10
  /** Page size of the caller's own listing. */
  const MY_PAGE_SIZE: nat := 6

  /** The caller's id resolves to a registered user. */
  ghost predicate HasUser(store: Store, caller: UserId)
  {
    exists k :: 0 <= k < |store.users| && store.users[k].id == caller
  }

  /** The sort a listing request selects: exactly "likecount" sorts by
      scrap count, anything else (including no key at all) by creation time. */
  function SortColumnOf(sort: Option<string>): SortColumn
  {
    if sort == Some("likecount") then ScrapCount else CreatedAt
  }

  /** The page `getPage` decorates: page `page` of 10 of the store sorted
      descending by the selected column. */
  function SortedPage(store: Store, page: nat, sort: Option<string>): seq<Course>
  {
    Page(SortDesc(store.courses, SortColumnOf(sort)), page, PAGE_SIZE)
  }

  /** The page `getPageByArea` decorates. */
  function AreaPage(store: Store, page: nat, sido: string, sgg: string): seq<Course>
  {
    Page(BySidoOrSgg(store.courses, sido, sgg), page, PAGE_SIZE)
  }

  /** The page `findAllByUser` projects. */
  function MyPage(store: Store, page: nat, caller: UserId): seq<Course>
  {
    Page(CoursesOf(store.courses, caller), page, MY_PAGE_SIZE)
  }

  /** The list item built for one course with the caller-relative flags. */
  function ToSortDto(c: Course, isMyPost: bool, isScraped: bool): UserCourseSortDto
  {
    UserCourseSortDto(c.id, c.sido, c.sgg, isMyPost, isScraped, ToUserDto(c.owner),
      c.title, c.content, c.comment, c.image, c.createdAt, c.difficulty)
  }

  function ToMyDto(c: Course): MyUserCourseDto
  {
    MyUserCourseDto(c.id, c.sido, c.sgg, c.image, c.createdAt, ToUserDto(c.owner))
  }

  function ToCourseDto(c: Course, isMyPost: bool, isScraped: bool): UserCourseDto
  {
    UserCourseDto(c.title, c.id, c.content, c.comment, c.sido, c.sgg, isScraped, isMyPost,
      c.image, c.createdAt, c.difficulty, ToUserDto(c.owner), c.scrapCount)
  }

  /** Each course of a page decorated: `isMyPost` is whether the caller owns
      ANY course (the same for every item), `isScraped` whether the caller
      scrapped this course. */
  ghost predicate Decorated(store: Store, caller: UserId, list: seq<Course>, dtos: seq<UserCourseSortDto>)
  {
    |dtos| == |list| &&
    forall i :: 0 <= i < |dtos| ==>
      dtos[i] == ToSortDto(list[i], ExistsByUser(store.courses, caller), ExistsScrap(store.scraps, caller, list[i].id)) &&
      dtos[i].isMyPost == ExistsByUser(store.courses, caller) &&
      dtos[i].isScraped == ((caller, list[i].id) in store.scraps)
  }

  /** The loop shared by `getPage` and `getPageByArea`: one item per course
      of the page, in page order. */
  method DecoratePage(store: Store, user: User, list: seq<Course>) returns (resultList: seq<UserCourseSortDto>)
    ensures Decorated(store, user.id, list, resultList)
  {
    resultList := [];
    for i := 0 to |list|
      invariant Decorated(store, user.id, list[..i], resultList)
    {
      var c := list[i];
      var isMyPost := ExistsByUser(store.courses, user.id);
      var isScraped := ExistsScrap(store.scraps, user.id, c.id);
      resultList := resultList + [ToSortDto(c, isMyPost, isScraped)];
    }
    assert list[..|list|] == list;
  }

  /** `getPage(page, sort)`. */
  method GetPage(store: Store, caller: UserId, page: int, sort: Option<string>)
    returns (r: Result<seq<UserCourseSortDto>>)
    ensures !HasUser(store, caller) ==> r == Err(UserNotFound)
    ensures HasUser(store, caller) && page < 0 ==> r == Err(InvalidPageIndex)
    ensures HasUser(store, caller) && page >= 0 ==> r.Ok?
    ensures r.Ok? ==>
      page >= 0 && |r.value| <= PAGE_SIZE &&
      Decorated(store, caller, SortedPage(store, page, sort), r.value)
  {
    var found := FindUser(store.users, caller);
    if found.None? {
      return Err(UserNotFound);
    }
    var user := found.value;
    if page < 0 {
      return Err(InvalidPageIndex);
    }
    var list: seq<Course>;
    if sort == Some("likecount") {
      list := Page(SortDesc(store.courses, ScrapCount), page, PAGE_SIZE);
    } else {
      list := Page(SortDesc(store.courses, CreatedAt), page, PAGE_SIZE);
    }
    var resultList := DecoratePage(store, user, list);
    return Ok(resultList);
  }

  /** `getPageByArea(page, sido, sgg)`. */
  method GetPageByArea(store: Store, caller: UserId, page: int, sido: string, sgg: string)
    returns (r: Result<seq<UserCourseSortDto>>)
    ensures !HasUser(store, caller) ==> r == Err(UserNotFound)
    ensures HasUser(store, caller) && page < 0 ==> r == Err(InvalidPageIndex)
    ensures HasUser(store, caller) && page >= 0 ==> r.Ok?
    ensures r.Ok? ==>
      page >= 0 && |r.value| <= PAGE_SIZE &&
      Decorated(store, caller, AreaPage(store, page, sido, sgg), r.value)
    ensures r.Ok? ==> forall i :: 0 <= i < |r.value| ==>
      r.value[i].sido == sido || r.value[i].sgg == sgg
  {
    var found := FindUser(store.users, caller);
    if found.None? {
      return Err(UserNotFound);
    }
    var user := found.value;
    if page < 0 {
      return Err(InvalidPageIndex);
    }
    var list := Page(BySidoOrSgg(store.courses, sido, sgg), page, PAGE_SIZE);
    assert forall i :: 0 <= i < |list| ==> list[i] in BySidoOrSgg(store.courses, sido, sgg);
    var resultList := DecoratePage(store, user, list);
    return Ok(resultList);
  }

  /** `findAllByUser(page)`: the caller's own courses, six per page, no flags. */
  method FindAllByUser(store: Store, caller: UserId, page: int)
    returns (r: Result<seq<MyUserCourseDto>>)
    ensures !HasUser(store, caller) ==> r == Err(UserNotFound)
    ensures HasUser(store, caller) && page < 0 ==> r == Err(InvalidPageIndex)
    ensures HasUser(store, caller) && page >= 0 ==> r.Ok?
    ensures r.Ok? ==>
      page >= 0 && |r.value| <= MY_PAGE_SIZE && Projected(MyPage(store, page, caller), r.value)
    ensures r.Ok? ==> forall i :: 0 <= i < |r.value| ==> r.value[i].user.userId == caller
    ensures HasUser(store, caller) && page >= 0 && !ExistsByUser(store.courses, caller) ==> r == Ok([])
  {
    var found := FindUser(store.users, caller);
    if found.None? {
      return Err(UserNotFound);
    }
    var user := found.value;
    if page < 0 {
      return Err(InvalidPageIndex);
    }
    var list := Page(CoursesOf(store.courses, user.id), page, MY_PAGE_SIZE);
    MyPageOwned(store, page, caller);
    var resultList := ProjectPage(list);
    return Ok(resultList);
  }

  /** Each course of a page projected to the reduced item, in page order. */
  ghost predicate Projected(list: seq<Course>, dtos: seq<MyUserCourseDto>)
  {
    |dtos| == |list| && forall i :: 0 <= i < |dtos| ==> dtos[i] == ToMyDto(list[i])
  }

  /** The loop of `findAllByUser`. */
  method ProjectPage(list: seq<Course>) returns (resultList: seq<MyUserCourseDto>)
    ensures Projected(list, resultList)
  {
    resultList := [];
    for i := 0 to |list|
      invariant Projected(list[..i], resultList)
    {
      var c := list[i];
      resultList := resultList + [ToMyDto(c)];
    }
    assert list[..|list|] == list;
  }

  /** Every course on a page of the caller's own listing is the caller's. */
  lemma MyPageOwned(store: Store, page: nat, caller: UserId)
    ensures forall i :: 0 <= i < |MyPage(store, page, caller)| ==> MyPage(store, page, caller)[i].owner.id == caller
    ensures !ExistsByUser(store.courses, caller) ==> MyPage(store, page, caller) == []
  {
    var mine := CoursesOf(store.courses, caller);
    CoursesOfEmpty(store.courses, caller);
    forall i | 0 <= i < |MyPage(store, page, caller)| ensures MyPage(store, page, caller)[i].owner.id == caller {
      assert MyPage(store, page, caller)[i] == mine[page * MY_PAGE_SIZE + i];
      assert mine[page * MY_PAGE_SIZE + i] in mine;
    }
  }

  /** `findById(uCourseId)`: the detail view, or NotFound for an unknown
      caller (checked first) or an unknown course. */
  function FindById(store: Store, caller: UserId, courseId: CourseId): (r: Result<UserCourseDto>)
    ensures !HasUser(store, caller) ==> r == Err(UserNotFound)
    ensures HasUser(store, caller) && (forall k :: 0 <= k < |store.courses| ==> store.courses[k].id != courseId) ==>
      r == Err(CourseNotFound)
    ensures HasUser(store, caller) && (exists k :: 0 <= k < |store.courses| && store.courses[k].id == courseId) ==>
      r.Ok?
    ensures r.Ok? ==>
      exists k :: 0 <= k < |store.courses| && store.courses[k].id == courseId &&
        r.value == ToCourseDto(store.courses[k], ExistsByUser(store.courses, caller),
                               ExistsScrap(store.scraps, caller, courseId))
    ensures r.Ok? || r == Err(UserNotFound) || r == Err(CourseNotFound)
  {
    match FindUser(store.users, caller)
    case None => Err(UserNotFound)
    case Some(user) =>
      match FindCourse(store.courses, courseId)
      case None => Err(CourseNotFound)
      case Some(course) =>
        var isMyPost := ExistsByUser(store.courses, user.id);
        var isScraped := ExistsScrap(store.scraps, user.id, course.id);
        Ok(ToCourseDto(course, isMyPost, isScraped))
  }

  // ---------------------------------------------------------------------
  // Properties of the pages the listings decorate

  /** The general listing's page is ordered descending by the column its
      key selects, holds at most 10 courses, and every one is in the store. */
  lemma SortedPageOrdered(store: Store, page: nat, sort: Option<string>)
    ensures var s := SortedPage(store, page, sort);
      |s| <= PAGE_SIZE &&
      (forall c :: c in s ==> c in store.courses) &&
      (sort == Some("likecount") ==>
        forall i, j :: 0 <= i < j < |s| ==> s[i].scrapCount >= s[j].scrapCount) &&
      (sort != Some("likecount") ==>
        forall i, j :: 0 <= i < j < |s| ==> s[i].createdAt >= s[j].createdAt)
  {
    var col := SortColumnOf(sort);
    var sorted := SortDesc(store.courses, col);
    var s := SortedPage(store, page, sort);
    PageOfSorted(sorted, page, PAGE_SIZE, col);
    forall c | c in s ensures c in store.courses {
      var i :| 0 <= i < |s| && s[i] == c;
      assert c == sorted[page * PAGE_SIZE + i];
      assert c in multiset(sorted);
    }
  }

  /** The area listing's page holds exactly the matching courses at their
      positions in the filtered scan: each is in the store and matches the
      region OR the sub-region. */
  lemma AreaPageMatches(store: Store, page: nat, sido: string, sgg: string)
    ensures var s := AreaPage(store, page, sido, sgg);
      |s| <= PAGE_SIZE &&
      forall c :: c in s ==> c in store.courses && (c.sido == sido || c.sgg == sgg)
  {
  }

  /** The caller's own listing holds only the caller's courses, and every
      course of the caller is on one of its pages. */
  lemma MyPageComplete(store: Store, caller: UserId, c: Course)
    requires c in store.courses && c.owner.id == caller
    ensures exists page: nat, i :: 0 <= i < |MyPage(store, page, caller)| && MyPage(store, page, caller)[i] == c
  {
    var mine := CoursesOf(store.courses, caller);
    assert c in mine;
    var k :| 0 <= k < |mine| && mine[k] == c;
    ItemOnPage(mine, MY_PAGE_SIZE, k);
    assert MyPage(store, k / MY_PAGE_SIZE, caller)[k % MY_PAGE_SIZE] == c;
  }
}
