/** Entities, response shapes and error kinds of the user-course service,
    plus the 32-bit integer arithmetic its leaderboard sum is done in. */
module Domain {

  type UserId = int
  type CourseId = int

  datatype Option<+T> = None | Some(value: T)

  /** The two NotFound failures (distinguished by their messages in the
      service), the IllegalArgumentException a negative page index raises,
      and the NullPointerException of the leaderboard's DTO mapping. */
  datatype Error = UserNotFound | CourseNotFound | InvalidPageIndex | NullUser

  datatype Result<+T> = Ok(value: T) | Err(error: Error)

  /** A registered user (the leaderboard's "owner"). */
  datatype User = User(id: UserId, nickName: string, profileImg: string)

  /** A user-submitted course. `owner` is the user entity the course refers to. */
  datatype Course = Course(
    id: CourseId,
    title: string,
    content: string,
    comment: string,
    sido: string,
    sgg: string,
    difficulty: int,
    image: string,
    createdAt: int,
    scrapCount: int,
    owner: User)

  /** Owner summary embedded in every response. */
  datatype UserDto = UserDto(userId: UserId, nickName: string, profileImg: string)

  /** One item of a general or area listing. */
  datatype UserCourseSortDto = UserCourseSortDto(
    userCourseId: CourseId,
    sido: string,
    sgg: string,
    isMyPost: bool,
    isScraped: bool,
    user: UserDto,
    title: string,
    content: string,
    comment: string,
    image: string,
    createdDate: int,
    difficulty: int)

  /** One item of the caller's own listing: a reduced projection without flags. */
  datatype MyUserCourseDto = MyUserCourseDto(
    userCourseId: CourseId,
    sido: string,
    sgg: string,
    image: string,
    createdDate: int,
    user: UserDto)

  /** The detail view of one course. */
  datatype UserCourseDto = UserCourseDto(
    title: string,
    userCourseId: CourseId,
    content: string,
    comment: string,
    sido: string,
    sgg: string,
    isScraped: bool,
    isMyPost: bool,
    image: string,
    createdDate: int,
    difficulty: int,
    user: UserDto,
    scrapCount: int)

  function ToUserDto(u: User): UserDto
  {
    UserDto(u.id, u.nickName, u.profileImg)
  }

  // ---------------------------------------------------------------------
  // Java `int` arithmetic

  const INT_MIN: int := -0x8000_0000
  const INT_MAX: int := 0x7fff_ffff
  const MODULUS: int := 0x1_0000_0000

  /** The Java `int` that an exact integer wraps to (two's complement, 32 bits). */
  function Wrap32(x: int): (r: int)
    ensures INT_MIN <= r <= INT_MAX
    ensures INT_MIN <= x <= INT_MAX ==> r == x
    ensures (x - r) % MODULUS == 0
  {
    (x - INT_MIN) % MODULUS + INT_MIN
  }

  /** Wrapping after every addition equals wrapping the exact sum once. */
  lemma WrapAdd(a: int, b: int)
    ensures Wrap32(Wrap32(a) + b) == Wrap32(a + b)
  {
  }
}
