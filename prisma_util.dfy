/** src/prisma/prisma_util.ts: recognising the store's raw errors, and
    reading the field name out of a foreign-key error message. */
module PrismaUtil {
  import opened Wrappers

  /** What the store can throw. `KnownRequest` is Prisma's known-request
      error with its code (P2002 unique, P2003 foreign key, P2025 record
      not found); `NotFound` is the unwrapped not-found error; `UnknownRequest`
      carries the database's own message (check constraints); `Other` is any
      other failure (lost connection, timeout, ...). */
  datatype RawError =
    | KnownRequest(code: string, message: string)
    | NotFound(message: string)
    | UnknownRequest(message: string)
    | Other(message: string)

  const RecordNotFoundCode := "P2025"
  const UniqueConstraintCode := "P2002"
  const ForeignKeyConstraintCode := "P2003"

  /** `isPrismaRecordNotFoundError`: a known-request error with code P2025,
      or the unwrapped not-found error whatever its message. It is never
      also a unique or a foreign-key error, and a database or other failure
      is never taken for it. */
  predicate IsRecordNotFound(e: RawError): (b: bool)
    ensures b <==> e.NotFound? || (e.KnownRequest? && e.code == "P2025")
    ensures e.NotFound? ==> b
    ensures e.UnknownRequest? || e.Other? ==> !b
    ensures b ==> !IsUniqueConstraint(e) && !IsForeignKeyConstraint(e)
  {
    (e.KnownRequest? && e.code == RecordNotFoundCode) || e.NotFound?
  }

  /** `isPrismaUniqueConstraintError`: only a known-request error, never also
      a foreign-key error or a record-not-found code. */
  predicate IsUniqueConstraint(e: RawError): (b: bool)
    ensures b <==> e.KnownRequest? && e.code == "P2002"
    ensures b ==> e.KnownRequest? && e.code != RecordNotFoundCode && !IsForeignKeyConstraint(e)
  {
    e.KnownRequest? && e.code == UniqueConstraintCode
  }

  /** `isPrismaForeignKeyConstraintError`: only a known-request error, whose
      code is neither the record-not-found nor the unique-constraint code. */
  predicate IsForeignKeyConstraint(e: RawError): (b: bool)
    ensures b <==> e.KnownRequest? && e.code == "P2003"
    ensures b ==> e.KnownRequest? && e.code != RecordNotFoundCode && e.code != UniqueConstraintCode
  {
    e.KnownRequest? && e.code == ForeignKeyConstraintCode
  }

  // ---- message.split(" ") --------------------------------------------------

  /** JavaScript's `s.split(" ")`: the pieces between single spaces, at least one. */
  function Split(s: string): (pieces: seq<string>)
    ensures |pieces| >= 1
    decreases |s|
  {
    if s == [] then [""]
    else if s[0] == ' ' then [""] + Split(s[1..])
    else
      var rest := Split(s[1..]);
      [[s[0]] + rest[0]] + rest[1..]
  }

  /** `pieces.join(" ")`. */
  function Join(pieces: seq<string>): string
    requires |pieces| >= 1
  {
    if |pieces| == 1 then pieces[0] else pieces[0] + " " + Join(pieces[1..])
  }

  predicate NoSpace(s: string) {
    forall i | 0 <= i < |s| :: s[i] != ' '
  }

  /** Splitting loses nothing: joining the pieces gives the text back. */
  lemma {:induction false} SplitJoin(s: string)
    ensures Join(Split(s)) == s
    decreases |s|
  {
    if s == [] {
    } else if s[0] == ' ' {
      SplitJoin(s[1..]);
      var rest := Split(s[1..]);
      assert Split(s) == [""] + rest;
      assert Split(s)[1..] == rest;
      assert s == [' '] + s[1..];
    } else {
      SplitJoin(s[1..]);
      var rest := Split(s[1..]);
      var pieces := Split(s);
      assert pieces[0] == [s[0]] + rest[0];
      assert pieces[1..] == rest[1..];
      assert s == [s[0]] + s[1..];
      if |rest| > 1 {
        assert Join(rest) == rest[0] + " " + Join(rest[1..]);
      }
    }
  }

  /** No piece of a split contains a space. */
  lemma {:induction false} SplitPiecesNoSpace(s: string)
    ensures forall k | 0 <= k < |Split(s)| :: NoSpace(Split(s)[k])
    decreases |s|
  {
    if s != [] {
      SplitPiecesNoSpace(s[1..]);
      var rest := Split(s[1..]);
      var pieces := Split(s);
      if s[0] == ' ' {
        assert pieces == [""] + rest;
        forall k | 0 <= k < |pieces| ensures NoSpace(pieces[k]) {
          if k > 0 { assert pieces[k] == rest[k - 1]; }
        }
      } else {
        assert pieces[0] == [s[0]] + rest[0];
        forall k | 0 <= k < |pieces| ensures NoSpace(pieces[k]) {
          if k > 0 { assert pieces[k] == rest[k]; }
        }
      }
    }
  }

  /** A text without spaces is a single piece. */
  lemma {:induction false} SplitNoSpace(f: string)
    requires NoSpace(f)
    ensures Split(f) == [f]
    decreases |f|
  {
    if f != [] {
      SplitNoSpace(f[1..]);
      assert [f[0]] + f[1..] == f;
    }
  }

  /** The pieces of a text one character longer at the front: a space
      starts a new first piece, any other character joins the first one. */
  function ConsPiece(c: char, pieces: seq<string>): seq<string>
    requires |pieces| >= 1
  {
    if c == ' ' then [""] + pieces else [[c] + pieces[0]] + pieces[1..]
  }

  /** One step of `Split`. */
  lemma SplitCons(c: char, t: string)
    ensures Split([c] + t) == ConsPiece(c, Split(t))
  {
    assert ([c] + t)[0] == c && ([c] + t)[1..] == t;
  }

  /** Adding a character in front changes only the first piece, so it
      commutes with appending pieces at the back. */
  lemma ConsPieceAppend(c: char, rest: seq<string>, tail: seq<string>)
    requires |rest| >= 1
    ensures ConsPiece(c, rest + tail) == ConsPiece(c, rest) + tail
  {
    if c != ' ' {
      assert (rest + tail)[0] == rest[0] && (rest + tail)[1..] == rest[1..] + tail;
    }
  }

  /** The inductive step of `SplitAroundSpace`: when the pieces of `u` are
      those of `t` followed by `tail`, putting one character in front of
      both keeps it so. */
  lemma SplitConsAppend(c: char, t: string, u: string, tail: seq<string>)
    requires Split(u) == Split(t) + tail
    ensures Split([c] + u) == Split([c] + t) + tail
  {
    SplitCons(c, u);
    SplitCons(c, t);
    ConsPieceAppend(c, Split(t), tail);
  }

  /** Splitting around one space concatenates the pieces of both sides. */
  lemma {:induction false} SplitAroundSpace(a: string, b: string)
    ensures Split(a + " " + b) == Split(a) + Split(b)
    decreases |a|
  {
    if a == [] {
      assert a + " " + b == [' '] + b;
      SplitCons(' ', b);
    } else {
      assert a == [a[0]] + a[1..];
      assert a + " " + b == [a[0]] + (a[1..] + " " + b);
      SplitAroundSpace(a[1..], b);
      SplitConsAppend(a[0], a[1..], a[1..] + " " + b, Split(b));
    }
  }

  /** The last space-separated token of a message (`split(" ").slice(-1)[0]`). */
  function LastToken(message: string): (t: string)
    ensures NoSpace(t)
  {
    SplitPiecesNoSpace(message);
    var pieces := Split(message);
    pieces[|pieces| - 1]
  }

  /** `fieldNameOfForeignKeyConstraintError`: the last token of the message
      of a foreign-key error, and `undefined` for every other error. */
  function FieldNameOfForeignKeyConstraintError(e: RawError): (field: Option<string>)
    ensures field.Some? <==> IsForeignKeyConstraint(e)
    ensures field.Some? ==> NoSpace(field.value)
  {
    if IsForeignKeyConstraint(e) then Some(LastToken(e.message)) else None
  }

  /** The message of a foreign-key error: "Foreign key constraint failed on
      the field: <field>". */
  function ForeignKeyMessage(field: string): string {
    "Foreign key constraint failed on the field: " + field
  }

  /** The message ends in its last token, which therefore is a suffix. */
  lemma {:induction false} LastTokenIsSuffix(message: string)
    ensures |LastToken(message)| <= |message|
    ensures message[|message| - |LastToken(message)|..] == LastToken(message)
  {
    SplitJoin(message);
    JoinEndsWithLast(Split(message));
  }

  lemma {:induction false} JoinEndsWithLast(pieces: seq<string>)
    requires |pieces| >= 1
    ensures |pieces[|pieces| - 1]| <= |Join(pieces)|
    ensures Join(pieces)[|Join(pieces)| - |pieces[|pieces| - 1]|..] == pieces[|pieces| - 1]
    decreases |pieces|
  {
    if |pieces| > 1 {
      JoinEndsWithLast(pieces[1..]);
    }
  }

  /** Round trip: the field name of a foreign-key error built from a field
      name without spaces is that field name. */
  lemma FieldNameRoundTrip(field: string)
    requires NoSpace(field)
    ensures FieldNameOfForeignKeyConstraintError(KnownRequest(ForeignKeyConstraintCode, ForeignKeyMessage(field)))
            == Some(field)
  {
    var prefix := "Foreign key constraint failed on the field:";
    assert ForeignKeyMessage(field) == prefix + " " + field;
    SplitAroundSpace(prefix, field);
    SplitNoSpace(field);
  }
}
