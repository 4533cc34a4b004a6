/** The application's error codes: four-digit strings whose first digit is
    the category (0 success, 1 user error, 9 system error). */
module ErrorCodes {

  datatype ErrorCode =
    | Success
    | DuplicateUserId
    | UserNotFound
    | InvalidPassword
    | ServerError
    | DatabaseError
  {
    function Code(): string
    {
      match this
      case Success => "0000"
      case DuplicateUserId => "1001"
      case UserNotFound => "1002"
      case InvalidPassword => "1003"
      case ServerError => "9001"
      case DatabaseError => "9002"
    }

    function Message(): string
    {
      match this
      case Success => "성공적으로 처리되었습니다."
      case DuplicateUserId => "이미 사용 중인 아이디입니다."
      case UserNotFound => "존재하지 않는 사용자입니다."
      case InvalidPassword => "비밀번호가 일치하지 않습니다."
      case ServerError => "서버 오류가 발생했습니다. 잠시 후 다시 시도해주세요."
      case DatabaseError => "데이터베이스 오류가 발생했습니다."
    }
  }

  const AllCodes: seq<ErrorCode> := [Success, DuplicateUserId, UserNotFound, InvalidPassword, ServerError, DatabaseError]

  datatype Category = SuccessCategory | UserCategory | SystemCategory | Unassigned

  predicate IsFourDigits(s: string)
  {
    |s| == 4 && forall i :: 0 <= i < 4 ==> '0' <= s[i] <= '9'
  }

  /** The category a code's first digit denotes. */
  function CategoryOf(code: string): Category
    requires |code| > 0
  {
    if code[0] == '0' then SuccessCategory
    else if code[0] == '1' then UserCategory
    else if code[0] == '9' then SystemCategory
    else Unassigned
  }

  /** The six constants are all there is. */
  lemma SixConstants(e: ErrorCode)
    ensures e in AllCodes
    ensures |AllCodes| == 6
  {
  }

  /** Every code is four digits, and its first digit puts it in the group
      the enum declares it in. */
  lemma CodesWellFormed(e: ErrorCode)
    ensures IsFourDigits(e.Code())
    ensures CategoryOf(e.Code()) == SuccessCategory <==> e == Success
    ensures CategoryOf(e.Code()) == UserCategory <==> e in {DuplicateUserId, UserNotFound, InvalidPassword}
    ensures CategoryOf(e.Code()) == SystemCategory <==> e in {ServerError, DatabaseError}
  {
  }

  /** Codes identify constants: no two share a code, and "0000" is
      SUCCESS's alone. */
  lemma CodesDistinct(a: ErrorCode, b: ErrorCode)
    ensures a.Code() == b.Code() ==> a == b
    ensures a.Code() == "0000" <==> a == Success
  {
  }
}
