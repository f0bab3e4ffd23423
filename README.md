# DRAWMAP user-course listing and leaderboard, modelled in Dafny

This project models the listing and leaderboard logic of the DRAWMAP
backend's `UserCourseService`. Users submit travel "courses" tied to an area
(`sido`, `sgg`). Other users "scrap" (save) courses. The service offers:

- a general listing sorted by recency or by popularity, 10 per page (`getPage`);
- an area listing, 10 per page (`getPageByArea`);
- the caller's own courses, 6 per page (`findAllByUser`);
- the detail view of one course (`findById`);
- a top-3 creator leaderboard (`getTop3User`).

Files:

- `domain.dfy` (module `Domain`): the entities `User` and `Course`, the response
  shapes, the error kinds, and Java `int` wrap-around (`Wrap32`).
- `repository.dfy` (module `Repository`): what the service asks of its Spring
  Data repositories, stated by what the query names promise. This covers lookup
  by id, `existsByUser`, the scrap existence check, the owner and area filters,
  the descending sort and the page slice. The store is a value:
  `users: seq<User>`, `courses: seq<Course>` and `scraps: set<(UserId, CourseId)>`.
  Sequence order stands for the store's own order.
- `listing.dfy` (module `Listing`): `getPage`, `getPageByArea`,
  `findAllByUser` and `findById`. Each of the first three loops over its page
  and appends to a result list, so it is modelled as a method with that loop.
  `findById` has no loop, so it is a function.
- `leaderboard.dfy` (module `Leaderboard`): `getTop3User`. It is modelled as
  the source writes it: the user loop, the inner sum loop, the six running
  variables and the DTO loop. The specification function `Aggregate` folds the
  same slot cascade (`Place`) over the users, and the lemmas are stated about
  `Aggregate`.

Behaviour kept as the code has it:

- The caller is an explicit `caller: UserId` parameter.
- An unknown caller fails with `UserNotFound` before anything else is done.
  After that, a negative page index fails with `InvalidPageIndex`, because the
  service passes `page` to `PageRequest.of` unchanged and that call rejects
  negative values.
- Only a sort key exactly equal to `"likecount"` sorts by `scrapCount`. Any
  other key, including a missing one (`None`), sorts by `createdAt`. Both sorts
  are descending.
- `isMyPost` is `existsByUser(caller)`: true when the caller owns any course at
  all. It is not scoped to the listed item, so every item of one result has the
  same value. `isScraped` is true exactly when the pair (caller, this course)
  is in the store's scrap set.
- The area listing includes a course when `sido` matches OR `sgg` matches.
- The leaderboard cascade overwrites the first slot whose total it strictly
  beats. It does not move the old occupant down. So it is not a correct top 3:
  with totals A=10, B=30, C=20, D=5 visited in that order, A ends up in no slot
  (`DisplacedLeaderIsLost`).
- The leaderboard's DTO loop calls `u.getId()` on every slot, including slots
  that are still null. With fewer than three users of positive total, which
  includes an empty store, the call fails with a null dereference (`NullUser`).
  It never returns null or short entries. A reader might expect an empty store
  to give three empty slots and no failure; the code does not do that, and the
  model follows the code.
- `localscrap` is a Java `int`, and `+=` on it wraps modulo 2^32. The model
  wraps at every addition. `WrapAdd` proves this equals wrapping the exact sum
  once, so `Total` is the exact sum wrapped once.

## Model

| member | source | states |
|---|---|---|
| `Domain.Wrap32` | src/main/java/com/umc/drawmap/service/UserCourseService.java:220-223 | the result is the Java `int` congruent to the exact value modulo 2^32; values already in `int` range are unchanged |
| `Domain.WrapAdd` | src/main/java/com/umc/drawmap/service/UserCourseService.java:221-223 | wrapping after each `+=` gives the same value as wrapping the exact sum once |
| `Repository.Lookup` | src/main/java/com/umc/drawmap/service/UserCourseService.java:84-85 | no entity is found exactly when none has the id; a found entity has the id and is one of those searched. `FindUser` here and `FindCourse` at lines 186-187 are this one lookup over users and over courses |
| `Repository.CoursesOf` | src/main/java/com/umc/drawmap/service/UserCourseService.java:219 | `findAllByUser` holds exactly the store's courses whose owner has the id |
| `Repository.CoursesOfEmpty` | src/main/java/com/umc/drawmap/service/UserCourseService.java:161 | an owner's course list is empty exactly when `existsByUser` is false for that owner |
| `Repository.BySidoOrSgg` | src/main/java/com/umc/drawmap/service/UserCourseService.java:128 | a course is in the area scan exactly when it is in the store and its `sido` matches or its `sgg` matches |
| `Repository.Insert` | src/main/java/com/umc/drawmap/service/UserCourseService.java:89 | inserting into the sorted scan adds exactly one copy of the course and nothing else (multiset) |
| `Repository.InsertSorted` | src/main/java/com/umc/drawmap/service/UserCourseService.java:89 | inserting into a scan sorted descending keeps it sorted descending |
| `Repository.SortDesc` | src/main/java/com/umc/drawmap/service/UserCourseService.java:89-93 | the sorted scan is a permutation of the store and is ordered descending by the chosen column |
| `Repository.Page` | src/main/java/com/umc/drawmap/service/UserCourseService.java:89-90 | page `p` of size `n` holds at most `n` items, item `i` of it is item `p*n+i` of the scan, and its length is exactly what is left of the scan from there, capped at `n` |
| `Repository.ItemOnPage` | src/main/java/com/umc/drawmap/service/UserCourseService.java:127 | every item of a scan is reachable: item `i` is at position `i mod n` of page `i div n` |
| `Repository.PageOfSorted` | src/main/java/com/umc/drawmap/service/UserCourseService.java:89-93 | a page of a scan sorted descending is sorted descending |
| `Listing.DecoratePage` | src/main/java/com/umc/drawmap/service/UserCourseService.java:96-116 | one item per course of the page, in page order; each has `isMyPost` = caller owns any course and `isScraped` = (caller, course) is a scrap |
| `Listing.GetPage` | src/main/java/com/umc/drawmap/service/UserCourseService.java:80-118 | fails with UserNotFound exactly for an unknown caller; otherwise fails for a negative page; otherwise returns at most 10 decorated items, one per course of that page of the store sorted by the selected key |
| `Listing.SortedPageOrdered` | src/main/java/com/umc/drawmap/service/UserCourseService.java:87-94 | under `"likecount"` the page is non-increasing in `scrapCount`; under any other key (or none) it is non-increasing in `createdAt`; it holds at most 10 store courses |
| `Listing.GetPageByArea` | src/main/java/com/umc/drawmap/service/UserCourseService.java:120-151 | same error cases as `getPage`; otherwise at most 10 decorated items, one per course of that page of the area scan, each matching `sido` or `sgg` |
| `Listing.AreaPageMatches` | src/main/java/com/umc/drawmap/service/UserCourseService.java:127-128 | every course of an area page is a store course whose `sido` or `sgg` matches, and there are at most 10 |
| `Listing.FindAllByUser` | src/main/java/com/umc/drawmap/service/UserCourseService.java:153-177 | same error cases; otherwise at most 6 flag-less items, one per course of that page of the caller's own courses, all owned by the caller; a caller with no courses gets an empty list |
| `Listing.ProjectPage` | src/main/java/com/umc/drawmap/service/UserCourseService.java:163-175 | one reduced item per course, in page order, with fields copied from the course |
| `Listing.MyPageOwned` | src/main/java/com/umc/drawmap/service/UserCourseService.java:160-161 | every course on the caller's page is owned by the caller; the page is empty when the caller owns nothing |
| `Listing.MyPageComplete` | src/main/java/com/umc/drawmap/service/UserCourseService.java:160-161 | every course the caller owns appears on some page of the caller's listing |
| `Listing.FindById` | src/main/java/com/umc/drawmap/service/UserCourseService.java:179-207 | an unknown caller gives UserNotFound (even when the course is also missing); an unknown course gives CourseNotFound; a known caller and a course with that id always give the view; a returned view is that of the store course with the id, with both flags and its `scrapCount` |
| `Leaderboard.Place` | src/main/java/com/umc/drawmap/service/UserCourseService.java:224-233 | one cascade step keeps the slots ordered, never lowers a slot, and changes at most one slot; a lower slot changes only when the total did not beat the higher ones; the slots change exactly when the total beats some slot |
| `Leaderboard.LocalScrap` | src/main/java/com/umc/drawmap/service/UserCourseService.java:219-223 | `localscrap` is the user's exact scrap sum wrapped to `int`, and equals the exact sum when the sum fits |
| `Leaderboard.RankUsers` | src/main/java/com/umc/drawmap/service/UserCourseService.java:210-234 | after the user loop the six variables are exactly the slots of the cascade folded over the users in order |
| `Leaderboard.ToUserDtos` | src/main/java/com/umc/drawmap/service/UserCourseService.java:239-247 | the mapping succeeds exactly when no slot is null, and then gives one summary per slot in order; otherwise it fails with the null dereference |
| `Leaderboard.GetTop3User` | src/main/java/com/umc/drawmap/service/UserCourseService.java:209-250 | returns exactly the three summaries of `user1`, `user2`, `user3` in slot order when all three are set, and fails with the null dereference otherwise |
| `Leaderboard.AggregateOrdered` | src/main/java/com/umc/drawmap/service/UserCourseService.java:211-233 | throughout the loop `scrap1 >= scrap2 >= scrap3 >= 0` |
| `Leaderboard.AggregateHeld` | src/main/java/com/umc/drawmap/service/UserCourseService.java:218-233 | a slot holds a user exactly when its total is positive, so a user whose total is 0 or less is never placed; a held user is one of the users and the slot's total is that user's total |
| `Leaderboard.AggregateMax` | src/main/java/com/umc/drawmap/service/UserCourseService.java:224-226 | `scrap1` is at least every user's total, so with the two lemmas above it is the maximum total, or 0 when no total is positive |
| `Leaderboard.AggregateLeader` | src/main/java/com/umc/drawmap/service/UserCourseService.java:224-226 | when `scrap1` is positive, `user1` is the first user in iteration order whose total equals it |
| `Leaderboard.AggregateDistinct` | src/main/java/com/umc/drawmap/service/UserCourseService.java:218-233 | for users with distinct ids, the filled slots hold pairwise distinct users |
| `Leaderboard.FilledAtMostPositive` | src/main/java/com/umc/drawmap/service/UserCourseService.java:218-233 | the number of filled slots is at most the number of users with a positive total |
| `Leaderboard.FewerThanThreeLeavesNull` | src/main/java/com/umc/drawmap/service/UserCourseService.java:235-246 | with fewer than three users of positive total (an empty store included) some slot stays null, so the mapping fails |
| `Leaderboard.DisplacedLeaderIsLost` | src/main/java/com/umc/drawmap/service/UserCourseService.java:224-233 | totals A=10, B=30, C=20, D=5 visited in order leave B(30), C(20), D(5) and drop A, although A's total exceeds D's |

## Left out

- `create`, `update`, `delete` and `userCourseList`: they upload files and pass saves, deletes and `findAll` straight to the repository. They have no logic of their own.
- Reading the caller from the security context and `Long.parseLong` of the principal's name: the model takes the caller id as a parameter instead. A missing or malformed principal is not modelled.
- Spring Data internals: the model states what the derived queries promise, not how the library computes them. A null `sido` or `sgg` argument to the area query is not modelled; the model takes both as strings.
- Tie order of the sorted scan: the store's order among equal keys is left unspecified by the sort request. The model fixes one admissible order, a stable sort that keeps store order for ties. `GetPage`'s contract is stated for this one admissible order. A store that orders ties differently could give a different page. `SortedPageOrdered` does not depend on the tie order.
- DTO builder mechanics: the builders are plain value constructors. The pass-through fields (title, content, comment, image, difficulty, owner summary) are shown as copied from the course. The image reference is a single string because its type is not part of this model.
- The `User` and `UserCourse` entity classes and the repository interfaces are not part of this model. Ids are unbounded integers. `createdAt` is the entity's creation timestamp; the model stands for it with an integer, which is used only for ordering and copied into the items. `scrapCount` is any integer, and its sum wraps as a Java `int`.
- `ChallengeController` only forwards HTTP requests to a challenge service that is not part of this model. Its arithmetic is only the one-based to zero-based `page - 1`.
- `CustomOAuth2UserService` calls the Kakao user-info HTTP API, issues tokens and does a duplicate-email check before saving. That is I/O and identity plumbing.
- Concurrency and consistency: each call is modelled against one fixed store value. Read skew between the per-item existence checks is not modelled.
