/**
 * `GET /api/settings`: the public settings as an object keyed by a name derived from each
 * row's description; credential and token columns are never copied.
 */
module PublicSettings {
  import opened Wrappers
  import opened Text
  import opened Seqs
  import opened Schema

  /** What the object holds per key: the row's id and description, and the description again as value. */
  datatype PublicEntry = PublicEntry(id: string, description: Option<string>, value: Option<string>)

  /** `where: { is_secure: false }`. */
  predicate IsPublic(s: Setting) { !s.isSecure }

  /**
   * The key: the description lowercased, each run of white space replaced by '_'; when the
   * description is absent or empty, `setting_<id>`. The key is never empty, so the `||`
   * fallback is taken exactly for an absent or empty description.
   */
  function Key(s: Setting): (k: string)
    ensures k != ""
    ensures s.description.Some? && s.description.value != "" ==>
              NoSpace(k) && |k| <= |s.description.value|
    ensures s.description.None? || s.description.value == "" ==> k == "setting_" + s.id
  {
    match s.description
    case Some(d) => if d != "" then (UnderscoreLength(Lower(d)); UnderscoreSpaces(Lower(d))) else "setting_" + s.id
    case None => "setting_" + s.id
  }

  /**
   * A description made of a word, a run of white space and the rest is keyed by the lowercased
   * word, one `_`, and the key of the rest: the whole run collapses into one underscore.
   */
  lemma KeyShape(s: Setting, a: string, w: string, b: string)
    requires s.description == Some(a + w + b)
    requires NoSpace(a)
    requires w != [] && forall i :: 0 <= i < |w| ==> IsSpace(w[i])
    requires b == [] || !IsSpace(b[0])
    ensures Key(s) == Lower(a) + "_" + UnderscoreSpaces(Lower(b))
  {
    var d := a + w + b;
    LowerAppend(a + w, b);
    LowerAppend(a, w);
    LowerNoSpace(a);
    assert Lower(w) == w;
    assert b != [] ==> Lower(b)[0] == LowerChar(b[0]);
    UnderscoreRun(Lower(a), w, Lower(b));
  }

  /** The entry for a row: `value` is the description, or null when it is absent or empty. */
  function EntryOf(s: Setting): (e: PublicEntry)
    ensures e.id == s.id && e.description == s.description
    ensures e.value.Some? <==> s.description.Some? && s.description.value != ""
    ensures e.value.Some? ==> e.value == s.description
  {
    PublicEntry(s.id, s.description, match s.description case Some(d) => if d != "" then Some(d) else None case None => None)
  }

  /** A reduce that sets `acc[key(row)] = entry(row)` for each row in turn. */
  function Collect<R, E>(rows: seq<R>, key: R -> string, entry: R -> E): (r: map<string, E>)
    ensures forall k :: k in r <==> exists i :: 0 <= i < |rows| && key(rows[i]) == k
  {
    if rows == [] then map[]
    else
      var init := rows[..|rows| - 1];
      var acc := Collect(init, key, entry);
      assert forall i :: 0 <= i < |init| ==> init[i] == rows[i];
      acc[key(rows[|rows| - 1]) := entry(rows[|rows| - 1])]
  }

  /** The entry under each key is that of the last row with the key. */
  lemma {:induction false} LastRowDecides<R, E>(rows: seq<R>, key: R -> string, entry: R -> E, k: string)
    requires k in Collect(rows, key, entry)
    ensures exists i :: 0 <= i < |rows| && key(rows[i]) == k && Collect(rows, key, entry)[k] == entry(rows[i]) &&
                        forall j :: i < j < |rows| ==> key(rows[j]) != k
  {
    var init := rows[..|rows| - 1];
    var last := rows[|rows| - 1];
    if k == key(last) {
      var i := |rows| - 1;
      assert key(rows[i]) == k && Collect(rows, key, entry)[k] == entry(rows[i]);
    } else {
      assert k in Collect(init, key, entry);
      LastRowDecides(init, key, entry, k);
      var i :| 0 <= i < |init| && key(init[i]) == k && Collect(init, key, entry)[k] == entry(init[i]) &&
               forall j :: i < j < |init| ==> key(init[j]) != k;
      assert rows[i] == init[i];
      forall j | i < j < |rows|
        ensures key(rows[j]) != k
      {
        if j < |init| {
          assert rows[j] == init[j];
        } else {
          assert rows[j] == last;
        }
      }
    }
  }

  /** The handler: only public rows are read. */
  function Get(rows: seq<Setting>): map<string, PublicEntry> {
    Collect(Filter(rows, IsPublic), Key, EntryOf)
  }

  /**
   * Every entry comes from a public row, the last public row with its key; every public row's
   * key is present.
   */
  lemma OnlyPublicRows(rows: seq<Setting>)
    ensures forall k :: k in Get(rows) ==>
              exists i :: 0 <= i < |rows| && IsPublic(rows[i]) && Key(rows[i]) == k && Get(rows)[k] == EntryOf(rows[i])
    ensures forall i :: 0 <= i < |rows| && IsPublic(rows[i]) ==> Key(rows[i]) in Get(rows)
  {
    var pub := Filter(rows, IsPublic);
    forall k | k in Get(rows)
      ensures exists i :: 0 <= i < |rows| && IsPublic(rows[i]) && Key(rows[i]) == k && Get(rows)[k] == EntryOf(rows[i])
    {
      LastRowDecides(pub, Key, EntryOf, k);
      var j :| 0 <= j < |pub| && Key(pub[j]) == k && Get(rows)[k] == EntryOf(pub[j]);
      assert pub[j] in rows;
      var i :| 0 <= i < |rows| && rows[i] == pub[j];
    }
    forall i | 0 <= i < |rows| && IsPublic(rows[i])
      ensures Key(rows[i]) in Get(rows)
    {
      assert rows[i] in pub;
      var j :| 0 <= j < |pub| && pub[j] == rows[i];
    }
  }

  /** A later row with the same key replaces an earlier one. */
  lemma {:induction false} LaterRowWins(rows: seq<Setting>, s: Setting)
    ensures Collect(rows + [s], Key, EntryOf)[Key(s)] == EntryOf(s)
  {
    assert (rows + [s])[..|rows + [s]| - 1] == rows;
  }
}
