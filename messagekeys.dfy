/** The object-store key scheme of the S3 message archive:
    "<chatID>/<YYYY>/<MM>/<DD>/<id>.json", and the per-day prefix that the
    reader lists. The decimal chat ID and every date field are closed by a
    '/', so a key sits under exactly one (chat, day) prefix. */
module MessageKeys {
  import opened Decimal
  import opened Calendar

  predicate NoSlash(s: string) { forall i :: 0 <= i < |s| ==> s[i] != '/' }

  /** `fmt.Sprintf("%d/%04d/%02d/%02d/", chatID, year, month, day)`. */
  function DayPrefix(chatId: int, d: Date): string
  {
    PadInt(chatId, 0) + "/" + PadInt(d.year, 4) + "/" + PadInt(d.month, 2) + "/" + PadInt(d.day, 2) + "/"
  }

  /** `generateKey`: `fmt.Sprintf("%d/%04d/%02d/%02d/%s.json", ...)`. */
  function GenerateKey(chatId: int, messageId: string, t: Date): (k: string)
    ensures DayPrefix(chatId, t) <= k
    ensures k[|DayPrefix(chatId, t)|..] == messageId + ".json"
  {
    PadInt(chatId, 0) + "/" + PadInt(t.year, 4) + "/" + PadInt(t.month, 2) + "/" + PadInt(t.day, 2) + "/" +
    messageId + ".json"
  }

  lemma PadIntNoSlash(n: int, w: nat)
    ensures NoSlash(PadInt(n, w))
  {
  }

  /** When "x/..." is a prefix of "y/..." and neither x nor y holds a '/',
      the two fields are the same and the rests are again prefix-related. */
  lemma SegmentPrefix(x: string, r1: string, y: string, r2: string)
    requires NoSlash(x) && NoSlash(y)
    requires x + "/" + r1 <= y + "/" + r2
    ensures x == y && r1 <= r2
  {
    var s1, s2 := x + "/" + r1, y + "/" + r2;
    assert s1[|x|] == '/' && s2[|y|] == '/';
    assert forall i :: 0 <= i < |x| ==> s1[i] == x[i];
    assert forall i :: 0 <= i < |y| ==> s2[i] == y[i];
    assert |x| == |y|;
    assert x == s1[..|x|] == s2[..|y|] == y;
    assert r1 == s1[|x| + 1..] && r2 == s2[|y| + 1..];
  }

  /** Four '/'-closed fields: a prefix relation between two such strings
      forces the fields to agree one by one. */
  lemma {:induction false} FieldsPrefix(a1: string, y1: string, m1: string, e1: string,
                                        a2: string, y2: string, m2: string, e2: string)
    requires NoSlash(a1) && NoSlash(y1) && NoSlash(m1) && NoSlash(e1)
    requires NoSlash(a2) && NoSlash(y2) && NoSlash(m2) && NoSlash(e2)
    requires a1 + "/" + y1 + "/" + m1 + "/" + e1 + "/" <= a2 + "/" + y2 + "/" + m2 + "/" + e2 + "/"
    ensures a1 == a2 && y1 == y2 && m1 == m2 && e1 == e2
  {
    var t1, t2 := e1 + "/" + "", e2 + "/" + "";
    var u1, u2 := m1 + "/" + t1, m2 + "/" + t2;
    var v1, v2 := y1 + "/" + u1, y2 + "/" + u2;
    assert a1 + "/" + y1 + "/" + m1 + "/" + e1 + "/" == a1 + "/" + v1;
    assert a2 + "/" + y2 + "/" + m2 + "/" + e2 + "/" == a2 + "/" + v2;
    SegmentPrefix(a1, v1, a2, v2);
    SegmentPrefix(y1, u1, y2, u2);
    SegmentPrefix(m1, t1, m2, t2);
    SegmentPrefix(e1, "", e2, "");
  }

  /** One day prefix extends another only when both name the same chat and day. */
  lemma PrefixOfPrefix(c1: int, d1: Date, c2: int, d2: Date)
    requires DayPrefix(c1, d1) <= DayPrefix(c2, d2)
    ensures c1 == c2 && d1 == d2
  {
    PadIntNoSlash(c1, 0); PadIntNoSlash(d1.year, 4); PadIntNoSlash(d1.month, 2); PadIntNoSlash(d1.day, 2);
    PadIntNoSlash(c2, 0); PadIntNoSlash(d2.year, 4); PadIntNoSlash(d2.month, 2); PadIntNoSlash(d2.day, 2);
    FieldsPrefix(PadInt(c1, 0), PadInt(d1.year, 4), PadInt(d1.month, 2), PadInt(d1.day, 2),
                 PadInt(c2, 0), PadInt(d2.year, 4), PadInt(d2.month, 2), PadInt(d2.day, 2));
    PadIntInjective(c1, c2, 0);
    PadIntInjective(d1.year, d2.year, 4);
    PadIntInjective(d1.month, d2.month, 2);
    PadIntInjective(d1.day, d2.day, 2);
  }

  /** A key lies under at most one (chat, day) prefix. */
  lemma PrefixesAgree(c1: int, d1: Date, c2: int, d2: Date, key: string)
    ensures DayPrefix(c1, d1) <= key && DayPrefix(c2, d2) <= key ==> c1 == c2 && d1 == d2
  {
    var p1, p2 := DayPrefix(c1, d1), DayPrefix(c2, d2);
    if p1 <= key && p2 <= key {
      if |p1| <= |p2| {
        assert p1 == key[..|p1|] == p2[..|p1|];
        PrefixOfPrefix(c1, d1, c2, d2);
      } else {
        assert p2 == key[..|p2|] == p1[..|p2|];
        PrefixOfPrefix(c2, d2, c1, d1);
      }
    }
  }

  /** Prefix isolation: the key of a message for chat `a` saved on day `d` is
      listed under the prefix for chat `b` and day `e` exactly when a == b and d == e. */
  lemma KeyUnderPrefix(a: int, d: Date, id: string, b: int, e: Date)
    ensures DayPrefix(b, e) <= GenerateKey(a, id, d) <==> a == b && d == e
  {
    PrefixesAgree(a, d, b, e, GenerateKey(a, id, d));
  }

  /** The seven days the reader visits, today-6 ... today; `Visited(today, k)`
      is the set of the first `k` of them. */
  function Visited(today: Date, k: nat): set<Date>
    requires Valid(today)
  {
    set j | 7 - k <= j < 7 :: Back(today, j)
  }

  function WindowDays(today: Date): set<Date>
    requires Valid(today)
  {
    Visited(today, 7)
  }

  /** Window bound: the day `j` days before today is read iff j <= 6. */
  lemma WindowBound(today: Date, j: nat)
    requires Valid(today)
    ensures Back(today, j) in WindowDays(today) <==> j < 7
  {
    if Back(today, j) in WindowDays(today) {
      var i :| 0 <= i < 7 && Back(today, i) == Back(today, j);
      BackInjective(today, i, j);
    }
  }

  /** A message saved for chat `a` on day `d` is visible to the reader for
      chat `b` on `today` exactly when a == b and d is one of the seven days. */
  lemma KeyInWindow(a: int, d: Date, id: string, b: int, today: Date)
    requires Valid(today)
    ensures (exists e :: e in WindowDays(today) && DayPrefix(b, e) <= GenerateKey(a, id, d))
        <==> a == b && d in WindowDays(today)
  {
    forall e | e in WindowDays(today) ensures DayPrefix(b, e) <= GenerateKey(a, id, d) <==> a == b && d == e {
      KeyUnderPrefix(a, d, id, b, e);
    }
    if a == b && d in WindowDays(today) {
      KeyUnderPrefix(a, d, id, b, d);
    }
  }
}
