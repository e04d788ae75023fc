/** The part catalogues of plate.py, brick.py and tile.py share one shape: a table from
    width to (length to part reference), and a size lookup that strips ".dat" from the
    asked-for id and returns the (width, length) of the first reference, in table order,
    whose own ".dat"-stripped form is equal to it. */
module Catalog {
  import opened Wrappers
  import opened Text

  /** One cell of a catalogue: a width x length part and its part number. Every reference
      in the catalogues is a part number followed by ".dat"; the cell keeps the number and
      Ref gives the reference. */
  datatype Entry = Entry(width: int, length: int, number: string)

  /** A catalogue as its cells in the order its nested loops visit them: widths in
      insertion order and, within a width, lengths in insertion order. */
  type SizeTable = seq<Entry>

  const DAT: string := ".dat"

  /** The LDraw file reference of a cell, such as "3024.dat". */
  function Ref(e: Entry): string {
    e.number + DAT
  }

  /** part_id.replace(".dat", ""): every occurrence of ".dat" removed. */
  function Key(partId: string): string {
    RemoveAll(partId, DAT)
  }

  /** The size of the first cell from index i on whose reference, ".dat" removed, equals
      part: the scan of the two nested loops, which return on the first match. */
  function LookupFrom(t: SizeTable, i: nat, part: string): Option<(int, int)>
    decreases |t| - i
  {
    if i >= |t| then None
    else if part == Key(Ref(t[i])) then Some((t[i].width, t[i].length))
    else LookupFrom(t, i + 1, part)
  }

  function Lookup(t: SizeTable, part: string): Option<(int, int)> {
    LookupFrom(t, 0, part)
  }

  /** get_*_size: the (width, length) of a part id, or None when no cell matches. */
  function FindSize(t: SizeTable, partId: string): Option<(int, int)> {
    Lookup(t, Key(partId))
  }

  /** The scan from i returns the size of the first matching cell at or after i, and None
      exactly when no cell from i on matches. */
  lemma {:induction false} LookupFromFinds(t: SizeTable, i: nat, part: string)
    ensures LookupFrom(t, i, part).Some? ==>
      exists k :: i <= k < |t| && Key(Ref(t[k])) == part && LookupFrom(t, i, part).value == (t[k].width, t[k].length)
                  && forall j :: i <= j < k ==> Key(Ref(t[j])) != part
    ensures LookupFrom(t, i, part).None? <==> forall k :: i <= k < |t| ==> Key(Ref(t[k])) != part
    decreases |t| - i
  {
    if i < |t| {
      if part == Key(Ref(t[i])) {
        assert LookupFrom(t, i, part).value == (t[i].width, t[i].length);
      } else {
        LookupFromFinds(t, i + 1, part);
        if LookupFrom(t, i + 1, part).Some? {
          var k :| i + 1 <= k < |t| && Key(Ref(t[k])) == part && LookupFrom(t, i + 1, part).value == (t[k].width, t[k].length)
                   && forall j :: i + 1 <= j < k ==> Key(Ref(t[j])) != part;
          assert forall j :: i <= j < k ==> Key(Ref(t[j])) != part;
        }
      }
    }
  }

  /** The lookup returns the size of the first matching cell, and None exactly when no cell
      matches. */
  lemma LookupFinds(t: SizeTable, part: string)
    ensures Lookup(t, part).Some? ==>
      exists k :: 0 <= k < |t| && Key(Ref(t[k])) == part && Lookup(t, part).value == (t[k].width, t[k].length)
                  && forall j :: 0 <= j < k ==> Key(Ref(t[j])) != part
    ensures Lookup(t, part).None? <==> forall k :: 0 <= k < |t| ==> Key(Ref(t[k])) != part
  {
    LookupFromFinds(t, 0, part);
  }

  /** The reference at table[width][length] from index i on; None where Python raises KeyError. */
  function GetFrom(t: SizeTable, i: nat, width: int, length: int): Option<string>
    decreases |t| - i
  {
    if i >= |t| then None
    else if t[i].width == width && t[i].length == length then Some(Ref(t[i]))
    else GetFrom(t, i + 1, width, length)
  }

  /** table[width][length], or None where Python raises KeyError. */
  function Get(t: SizeTable, width: int, length: int): Option<string> {
    GetFrom(t, 0, width, length)
  }

  lemma {:induction false} GetFromFinds(t: SizeTable, i: nat, width: int, length: int)
    ensures GetFrom(t, i, width, length).Some? ==>
      exists k :: i <= k < |t| && t[k].width == width && t[k].length == length && GetFrom(t, i, width, length).value == Ref(t[k])
    ensures GetFrom(t, i, width, length).None? <==> forall k :: i <= k < |t| ==> (t[k].width, t[k].length) != (width, length)
    decreases |t| - i
  {
    if i < |t| && !(t[i].width == width && t[i].length == length) {
      GetFromFinds(t, i + 1, width, length);
    }
  }

  /** Get finds the reference of a cell of that size, and fails only when there is none. */
  lemma GetFinds(t: SizeTable, width: int, length: int)
    ensures Get(t, width, length).Some? ==>
      exists k :: 0 <= k < |t| && t[k].width == width && t[k].length == length && Get(t, width, length).value == Ref(t[k])
    ensures Get(t, width, length).None? <==> forall k :: 0 <= k < |t| ==> (t[k].width, t[k].length) != (width, length)
  {
    GetFromFinds(t, 0, width, length);
  }

  /** Stripping ".dat" from a part number with no '.' in it, or from its reference, gives
      the number. */
  lemma KeyOfRef(e: Entry)
    requires '.' !in e.number
    ensures Key(Ref(e)) == e.number && Key(e.number) == e.number
  {
    forall k | 0 <= k < |e.number| ensures e.number[k] != DAT[0] {
      assert e.number[k] in e.number;
    }
    RemoveAllSuffix(e.number, DAT);
  }

  /** No part number holds a '.', and no two cells share a part number. */
  predicate WellFormed(t: SizeTable) {
    (forall k :: 0 <= k < |t| ==> '.' !in t[k].number)
    && forall i, j :: 0 <= i < j < |t| ==> t[i].number != t[j].number
  }

  /** In a well-formed catalogue every reference is found at its own cell's size, whether
      asked for with or without its ".dat" suffix. */
  lemma FindSizeOfRef(t: SizeTable, k: int)
    requires WellFormed(t) && 0 <= k < |t|
    ensures FindSize(t, Ref(t[k])) == Some((t[k].width, t[k].length))
    ensures FindSize(t, t[k].number) == Some((t[k].width, t[k].length))
  {
    KeyOfRef(t[k]);
    var part := t[k].number;
    LookupFinds(t, part);
    var r := Lookup(t, part);
    assert r.Some?;
    var i :| 0 <= i < |t| && Key(Ref(t[i])) == part && r.value == (t[i].width, t[i].length)
             && forall j :: 0 <= j < i ==> Key(Ref(t[j])) != part;
    KeyOfRef(t[i]);
    assert Key(Ref(t[k])) == part;
    assert i == k;
  }

  /** A part number is asked for the same with or without ".dat", and is found exactly
      when some cell holds it. */
  lemma FindSizeOfNumber(t: SizeTable, number: string)
    requires WellFormed(t) && '.' !in number
    ensures FindSize(t, number + DAT) == FindSize(t, number)
    ensures FindSize(t, number).None? <==> forall k :: 0 <= k < |t| ==> t[k].number != number
  {
    KeyOfRef(Entry(0, 0, number));
    LookupFinds(t, number);
    forall k | 0 <= k < |t| ensures Key(Ref(t[k])) == t[k].number {
      KeyOfRef(t[k]);
    }
  }

  /** A part id that is a cell's part number, with or without ".dat", is found at that cell. */
  lemma FindSizeFound(t: SizeTable, partId: string, k: int)
    requires WellFormed(t) && 0 <= k < |t| && (partId == t[k].number || partId == t[k].number + DAT)
    ensures FindSize(t, partId) == Some((t[k].width, t[k].length))
  {
    FindSizeOfRef(t, k);
  }

  /** A part id that is a part number no cell holds, with or without ".dat", is not found. */
  lemma FindSizeMissing(t: SizeTable, partId: string, number: string)
    requires WellFormed(t) && '.' !in number && (partId == number || partId == number + DAT)
    requires forall k :: 0 <= k < |t| ==> t[k].number != number
    ensures FindSize(t, partId) == None
  {
    FindSizeOfNumber(t, number);
  }

  /** A size found is the size of some cell, so bounds on every cell bound it. */
  lemma FindSizeBounded(t: SizeTable, partId: string, maxLength: int)
    requires forall k :: 0 <= k < |t| ==> t[k].width in {1, 2} && 1 <= t[k].length <= maxLength
    ensures FindSize(t, partId).Some? ==>
      FindSize(t, partId).value.0 in {1, 2} && 1 <= FindSize(t, partId).value.1 <= maxLength
  {
    LookupFinds(t, Key(partId));
  }

  /** Any size the lookup finds is the size of one of the table's cells. */
  lemma FindSizeIsCell(t: SizeTable, partId: string)
    ensures FindSize(t, partId).Some? ==>
      exists k :: 0 <= k < |t| && FindSize(t, partId).value == (t[k].width, t[k].length)
  {
    LookupFinds(t, Key(partId));
  }

  /** Whatever the table hands out by size is recognised by the size lookup. */
  lemma GetThenFindSize(t: SizeTable, width: int, length: int)
    requires WellFormed(t) && Get(t, width, length).Some?
    ensures FindSize(t, Get(t, width, length).value) == Some((width, length))
  {
    GetFinds(t, width, length);
    var k :| 0 <= k < |t| && t[k].width == width && t[k].length == length && Get(t, width, length).value == Ref(t[k]);
    FindSizeOfRef(t, k);
  }
}
