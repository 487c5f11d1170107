/** What a list of writes leaves under a key, said without executing any of them. */
module Writes {
  datatype Write = Put(key: string, value: string) | Append(key: string, value: string) | NoWrite

  predicate PutsTo(w: Write, k: string) { w.Put? && w.key == k }

  predicate AppendsTo(w: Write, k: string) { w.Append? && w.key == k }

  /** Some write names the key. */
  ghost predicate Named(ws: seq<Write>, k: string) {
    exists i | 0 <= i < |ws| :: PutsTo(ws[i], k) || AppendsTo(ws[i], k)
  }

  /** Where the last Put of a key stands, -1 if there is none. */
  function LastPut(ws: seq<Write>, k: string): (p: int)
    ensures -1 <= p < |ws| && (p >= 0 ==> PutsTo(ws[p], k))
    ensures forall i | p < i < |ws| :: !PutsTo(ws[i], k)
  {
    if ws == [] then -1
    else if PutsTo(ws[|ws| - 1], k) then |ws| - 1
    else LastPut(ws[..|ws| - 1], k)
  }

  /** The values appended to a key from some position on, one after the other. */
  function Appended(ws: seq<Write>, k: string, from: nat): string
    decreases |ws| - from
  {
    if from >= |ws| then ""
    else (if AppendsTo(ws[from], k) then ws[from].value else "") + Appended(ws, k, from + 1)
  }

  /** The value of the last Put, or nothing, followed by all that was appended after it. */
  function ValueOf(ws: seq<Write>, k: string): string {
    var p := LastPut(ws, k);
    (if p >= 0 then ws[p].value else "") + Appended(ws, k, p + 1)
  }

  lemma {:induction false} AppendedSnoc(ws: seq<Write>, w: Write, k: string, from: nat)
    requires from <= |ws|
    ensures Appended(ws + [w], k, from) == Appended(ws, k, from) + if AppendsTo(w, k) then w.value else ""
    decreases |ws| - from
  {
    var longer := ws + [w];
    if from < |ws| {
      AppendedSnoc(ws, w, k, from + 1);
      var first, rest, last := if AppendsTo(ws[from], k) then ws[from].value else "", Appended(ws, k, from + 1),
        if AppendsTo(w, k) then w.value else "";
      assert longer[from] == ws[from];
      assert first + (rest + last) == (first + rest) + last;
    } else {
      assert longer[from] == w && Appended(longer, k, from + 1) == "";
      assert (if AppendsTo(w, k) then w.value else "") + "" == if AppendsTo(w, k) then w.value else "";
    }
  }

  lemma NamedSnoc(ws: seq<Write>, w: Write, k: string)
    ensures Named(ws + [w], k) <==> Named(ws, k) || PutsTo(w, k) || AppendsTo(w, k)
  {
    var longer := ws + [w];
    assert longer[|ws|] == w;
    if Named(ws, k) {
      var i :| 0 <= i < |ws| && (PutsTo(ws[i], k) || AppendsTo(ws[i], k));
      assert longer[i] == ws[i];
    }
  }

  /** One more write. */
  lemma ValueSnoc(ws: seq<Write>, w: Write, k: string)
    ensures PutsTo(w, k) ==> ValueOf(ws + [w], k) == w.value
    ensures AppendsTo(w, k) ==> ValueOf(ws + [w], k) == ValueOf(ws, k) + w.value
    ensures !PutsTo(w, k) && !AppendsTo(w, k) ==> ValueOf(ws + [w], k) == ValueOf(ws, k)
  {
    var longer, p := ws + [w], LastPut(ws, k);
    assert longer[|ws|] == w && longer[..|ws|] == ws;
    if PutsTo(w, k) {
      assert LastPut(longer, k) == |ws|;
      assert w.value + "" == w.value;
    } else {
      assert LastPut(longer, k) == p;
      AppendedSnoc(ws, w, k, p + 1);
      var put, mid, last := if p >= 0 then ws[p].value else "", Appended(ws, k, p + 1),
        if AppendsTo(w, k) then w.value else "";
      assert put + (mid + last) == (put + mid) + last;
      assert ValueOf(ws, k) + "" == ValueOf(ws, k);
    }
  }

  /** A key that no write names has no value. */
  lemma {:induction false} UnnamedIsEmpty(ws: seq<Write>, k: string)
    requires !Named(ws, k)
    ensures ValueOf(ws, k) == ""
    decreases |ws|
  {
    if ws != [] {
      var short, w := ws[..|ws| - 1], ws[|ws| - 1];
      assert ws == short + [w];
      NamedSnoc(short, w, k);
      UnnamedIsEmpty(short, k);
      ValueSnoc(short, w, k);
    }
  }
}
