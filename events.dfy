/**
 * The event records that celery's event receiver hands to the exporter, and
 * the string operations both trackers use to take the event `type` apart.
 */
module Events {
  import opened Wrappers

  /**
   * One celery event. `kind` is the `type` field ("<group>-<subject>", for
   * example "task-started"); fields an event may lack are options.
   */
  datatype Event = Event(
    kind: string,
    uuid: Option<string>,
    name: Option<string>,
    queue: Option<string>,
    hostname: string,
    timestamp: real,
    localReceived: real,
    clock: int,
    runtime: Option<real>)

  /** Index of the first `c` in `s`. */
  function IndexOf(s: string, c: char): (i: nat)
    requires c in s
    ensures i < |s|
  {
    if s[0] == c then 0
    else
      assert c in s[1..] by { assert s == [s[0]] + s[1..]; }
      IndexOf(s[1..], c) + 1
  }

  /** `IndexOf` finds a `c`, and no `c` comes before it. */
  lemma {:induction false} IndexOfFirst(s: string, c: char)
    requires c in s
    ensures s[IndexOf(s, c)] == c && c !in s[..IndexOf(s, c)]
  {
    if s[0] != c {
      assert c in s[1..] by { assert s == [s[0]] + s[1..]; }
      IndexOfFirst(s[1..], c);
      var j := IndexOf(s[1..], c);
      assert s[..j + 1] == [s[0]] + s[1..][..j];
    }
  }

  /** The text before the first `c`, or all of `s` when it has none. */
  function Before(s: string, c: char): string {
    if c in s then s[..IndexOf(s, c)] else s
  }

  /** The text after the first `c`. */
  function After(s: string, c: char): string
    requires c in s
  {
    s[IndexOf(s, c) + 1..]
  }

  /**
   * `Before` is the longest prefix without `c`, and around the first `c`
   * the text splits into `Before`, the separator and `After`.
   */
  lemma SplitAtFirst(s: string, c: char)
    ensures Before(s, c) <= s && c !in Before(s, c)
    ensures |Before(s, c)| < |s| ==> s[|Before(s, c)|] == c
    ensures c in s ==> s == Before(s, c) + [c] + After(s, c)
  {
    if c in s {
      IndexOfFirst(s, c);
      var i := IndexOf(s, c);
      assert s == s[..i] + [c] + s[i + 1..];
    }
  }

  /** Python's `s.partition(c)` without the separator: (head, tail), tail "" when `c` is absent. */
  function Partition(s: string, c: char): (string, string) {
    if c in s then (Before(s, c), After(s, c)) else (s, "")
  }

  /**
   * Rust's `s.split(c).collect::<Vec<&str>>()[1]`: the second piece, the
   * text between the first and the second `c` (or the end of `s`).
   */
  function SecondPiece(s: string, c: char): string
    requires c in s
  {
    Before(After(s, c), c)
  }

  /**
   * The second piece holds no `c`, follows the first piece and its
   * separator, and ends at the second `c` or at the end of the text.
   */
  lemma SecondPieceIsBetween(s: string, c: char)
    requires c in s
    ensures c !in SecondPiece(s, c) && Before(s, c) + [c] + SecondPiece(s, c) <= s
    ensures |Before(s, c)| + 1 + |SecondPiece(s, c)| < |s| ==> s[|Before(s, c)| + 1 + |SecondPiece(s, c)|] == c
  {
    SplitAtFirst(s, c);
    var tail := After(s, c);
    SplitAtFirst(tail, c);
    var r := Before(tail, c);
    assert tail == r + tail[|r|..];
    assert s == Before(s, c) + [c] + r + tail[|r|..];
  }

  /** `t` occurs in `s` at position `i`. */
  predicate OccursAt(s: string, t: string, i: int) {
    0 <= i && i + |t| <= |s| && s[i..i + |t|] == t
  }

  /** `t` occurs in `s` (Rust's `str::contains`). */
  predicate Contains(s: string, t: string) {
    t <= s || (|s| > 0 && Contains(s[1..], t))
  }

  /** `Contains` is the substring relation. */
  lemma {:induction false} ContainsIsSubstring(s: string, t: string)
    ensures Contains(s, t) <==> exists i :: OccursAt(s, t, i)
  {
    if t <= s {
      assert OccursAt(s, t, 0);
    } else if |s| > 0 {
      ContainsIsSubstring(s[1..], t);
      if exists i :: OccursAt(s, t, i) {
        var i :| OccursAt(s, t, i);
        assert i != 0;
        assert s[1..][i - 1..i - 1 + |t|] == s[i..i + |t|];
        assert OccursAt(s[1..], t, i - 1);
      }
      if Contains(s[1..], t) {
        var i :| OccursAt(s[1..], t, i);
        assert s[i + 1..i + 1 + |t|] == s[1..][i..i + |t|];
        assert OccursAt(s, t, i + 1);
      }
    } else {
      assert forall i :: !OccursAt(s, t, i);
    }
  }

  /** The first occurrence is the only position before which `c` does not occur. */
  lemma IndexOfUnique(s: string, c: char, i: nat)
    requires i < |s| && s[i] == c && c !in s[..i]
    ensures IndexOf(s, c) == i
  {
    IndexOfFirst(s, c);
    var j := IndexOf(s, c);
    assert forall k | 0 <= k < i :: s[..i][k] == s[k];
    assert forall k | 0 <= k < j :: s[..j][k] == s[k];
  }

  /** A head without `c`, then `c`: the text splits at that `c`. */
  lemma FirstSeparator(head: string, c: char, tail: string)
    requires c !in head
    ensures c in head + [c] + tail
    ensures Before(head + [c] + tail, c) == head && After(head + [c] + tail, c) == tail
  {
    var s := head + [c] + tail;
    assert s[|head|] == c && s[..|head|] == head;
    IndexOfUnique(s, c, |head|);
    assert s[|head| + 1..] == tail;
  }

  /** What a text contains, the text with more after it contains too. */
  lemma {:induction false} ContainsExtended(s: string, t: string, u: string)
    requires Contains(s, t)
    ensures Contains(s + u, t)
  {
    if t <= s {
      assert t <= s + u;
    } else {
      assert (s + u)[1..] == s[1..] + u;
      ContainsExtended(s[1..], t, u);
    }
  }

  /** How both trackers read a "task-<subject>" type. */
  lemma TaskKind(subject: string)
    requires '-' !in subject
    ensures '-' in "task-" + subject
    ensures Contains("task-" + subject, "task")
    ensures SecondPiece("task-" + subject, '-') == subject
    ensures Partition("task-" + subject, '-') == ("task", subject)
  {
    var kind := "task-" + subject;
    assert kind[4] == '-' && kind[..4] == "task";
    IndexOfUnique(kind, '-', 4);
    assert After(kind, '-') == subject;
    assert "task" <= kind;
  }
}
