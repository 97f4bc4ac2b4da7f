/** The HTTP error taxonomy: a closed pair of error variants that report an HTTP
    status and a one-line description. How each variant renders itself to the
    page (WriteToPage) builds a TemplateWriter, so it lives beside Execute in
    module Templates. */
module Errors {
  import opened Wrappers
  import Decimal

  /** A Go `error` raised outside this core (by the database driver, the
      template engine, ...), known to the model only by its Error() text. */
  datatype RawError = RawError(message: string)

  const StatusSeparator := " -- "
  const DatabaseErrorPrefix := "DatabaseError: "

  /** The status every database error reports: 500, Internal Server Error. */
  const InternalServerError := 500

  /** HTTPError: an error that can be shown on a page. A StatusError carries its
      own status and message (a page that was not found, invalid input); a
      DatabaseError wraps whatever the database driver returned. */
  datatype HTTPError =
    | StatusError(status: int, message: string)
    | DatabaseError(dbError: RawError)
  {
    /** The HTTP status the error page is sent with. */
    function HTTPStatus(): (code: int)
      ensures StatusError? ==> code == status
      ensures DatabaseError? ==> code == InternalServerError
    {
      match this
      case StatusError(s, _) => s
      case DatabaseError(_) => 500
    }

    /** The readable text of the error, as Go's fmt prints it. */
    function Error(): (text: string)
      ensures StatusError? ==> text == Decimal.IntToDecimal(status) + StatusSeparator + message
      ensures DatabaseError? ==> text == DatabaseErrorPrefix + dbError.message
    {
      match this
      case StatusError(s, m) => Decimal.IntToDecimal(s) + StatusSeparator + m
      case DatabaseError(cause) => DatabaseErrorPrefix + cause.message
    }
  }

  /** Wraps an error raised by the database; nil stays nil. */
  function NewDatabaseError(err: Option<RawError>): (r: Option<HTTPError>)
    ensures r.None? <==> err.None?
    ensures r.Some? ==> r.value.DatabaseError? && r.value.dbError == err.value
    ensures r.Some? ==> r.value.HTTPStatus() == InternalServerError
    ensures r.Some? ==> r.value.Error() == DatabaseErrorPrefix + err.value.message
  {
    match err
    case None => None
    case Some(e) => Some(DatabaseError(e))
  }

  /** A StatusError's text is its decimal status, the separator, then its message. */
  lemma StatusErrorText(s: int, m: string)
    ensures var text := StatusError(s, m).Error();
      && Decimal.DecimalValue(text[..|Decimal.IntToDecimal(s)|]) == s
      && text[|Decimal.IntToDecimal(s)|..] == StatusSeparator + m
  {
    var d := Decimal.IntToDecimal(s);
    var text := StatusError(s, m).Error();
    assert text[..|d|] == d;
    assert text[|d|..] == StatusSeparator + m;
    Decimal.IntToDecimalRoundTrip(s);
  }

  /** The text of an error determines the error: no two errors print alike. */
  lemma ErrorTextInjective(a: HTTPError, b: HTTPError)
    requires a.Error() == b.Error()
    ensures a == b
  {
    var text := a.Error();
    match a
    case StatusError(s1, m1) =>
      var d1 := Decimal.IntToDecimal(s1);
      assert text[0] == d1[0];
      match b {
        case DatabaseError(_) =>
          assert false;
        case StatusError(s2, m2) =>
          var d2 := Decimal.IntToDecimal(s2);
          StatusSeparatorAfterDigits(d1, m1, d2, m2);
          StatusSeparatorAfterDigits(d2, m2, d1, m1);
          assert d1 == text[..|d1|] == d2;
          Decimal.IntToDecimalInjective(s1, s2);
          assert m1 == text[|d1| + |StatusSeparator|..] == m2;
      }
    case DatabaseError(c1) =>
      assert text[0] == 'D';
      match b {
        case StatusError(s2, _) =>
          assert false;
        case DatabaseError(c2) =>
          assert c1.message == text[|DatabaseErrorPrefix|..] == c2.message;
      }
  }

  /** Where two printed status errors agree, the shorter decimal cannot be
      followed by a digit of the longer one. */
  lemma StatusSeparatorAfterDigits(d1: string, m1: string, d2: string, m2: string)
    requires 1 <= |d1| && 1 <= |d2|
    requires forall i :: 0 < i < |d2| ==> Decimal.IsDigit(d2[i])
    requires d1 + StatusSeparator + m1 == d2 + StatusSeparator + m2
    ensures |d1| >= |d2|
  {
    var text := d1 + StatusSeparator + m1;
    assert text[|d1|] == ' ';
    assert forall i :: 0 <= i < |d2| ==> text[i] == d2[i];
  }

  /** The formatting pinned by the repository's tests. */
  lemma ErrorTextExamples()
    ensures StatusError(123, "foo bar").Error() == "123 -- foo bar"
    ensures StatusError(404, "Monitor could not be found").HTTPStatus() == 404
    ensures DatabaseError(RawError("foo")).Error() == "DatabaseError: foo"
  {
  }
}
