/** How bends of the AdLib Visual Composer synth sound: up and down the scale, and where they do not go
    the way they are bent (src/composer.cpp). */
module ComposerPitch {
  import opened Wrappers
  import opened Bits
  import opened Machine
  import opened ComposerSpec
  import opened Composer
  import opened ComposerRun

  /** skFNumNotes. */
  const FNUMS: seq<seq<nat>> := [
    [343, 364, 385, 408, 433, 459, 486, 515, 546, 579, 614, 650],
    [344, 365, 387, 410, 434, 460, 488, 517, 548, 581, 615, 652],
    [345, 365, 387, 410, 435, 461, 489, 518, 549, 582, 617, 653],
    [346, 366, 388, 411, 436, 462, 490, 519, 550, 583, 618, 655],
    [346, 367, 389, 412, 437, 463, 491, 520, 551, 584, 619, 657],
    [347, 368, 390, 413, 438, 464, 492, 522, 553, 586, 621, 658],
    [348, 369, 391, 415, 439, 466, 493, 523, 554, 587, 622, 660],
    [349, 370, 392, 415, 440, 467, 495, 524, 556, 589, 624, 661],
    [350, 371, 393, 416, 441, 468, 496, 525, 557, 590, 625, 663],
    [351, 372, 394, 417, 442, 469, 497, 527, 558, 592, 627, 665],
    [351, 372, 395, 418, 443, 470, 498, 528, 559, 593, 628, 666],
    [352, 373, 396, 419, 444, 471, 499, 529, 561, 594, 630, 668],
    [353, 374, 397, 420, 445, 472, 500, 530, 562, 596, 631, 669],
    [354, 375, 398, 421, 447, 473, 502, 532, 564, 597, 633, 671],
    [355, 376, 398, 422, 448, 474, 503, 533, 565, 599, 634, 672],
    [356, 377, 399, 423, 449, 475, 504, 534, 566, 600, 636, 674],
    [356, 378, 400, 424, 450, 477, 505, 535, 567, 601, 637, 675],
    [357, 379, 401, 425, 451, 478, 506, 537, 569, 603, 639, 677],
    [358, 379, 402, 426, 452, 479, 507, 538, 570, 604, 640, 679],
    [359, 380, 403, 427, 453, 480, 509, 539, 571, 606, 642, 680],
    [360, 381, 404, 428, 454, 481, 510, 540, 572, 607, 643, 682],
    [360, 382, 405, 429, 455, 482, 511, 541, 574, 608, 645, 683],
    [361, 383, 406, 430, 456, 483, 512, 543, 575, 610, 646, 685],
    [362, 384, 407, 431, 457, 484, 513, 544, 577, 611, 648, 687],
    [363, 385, 408, 432, 458, 485, 514, 545, 578, 612, 649, 688]]

  /** A bend by k half-tones and r 25ths sounds like the note k half-tones up, unbent, from row r. */
  lemma BendIsTranspose(fnums: seq<seq<nat>>, v: Voice, k: int16, r: int16, note: int, on: bool)
    requires IsTable(fnums) && 0 <= r < STEPS
    ensures var bent := Played(fnums, v.(tuning := Tuning(k, r)), note, on);
            var plain := Played(fnums, v.(tuning := Tuning(0, r)), note + k, on);
            bent.lo == plain.lo && bent.hi == plain.hi
  {
  }

  /** How high two frequency registers sound. */
  function Height(lo: byte, hi: byte): nat {
    (lo + 256 * (hi % 4)) * Pow2(hi / 4 % 8)
  }

  // The scale in steps, 25 to the half-tone: 300 in an octave, 2400 in all

  function Entry(fnums: seq<seq<nat>>, i: nat): nat
    requires IsTable(fnums) && i < 300
  {
    fnums[i % 25][i / 25]
  }

  function HeightAt(fnums: seq<seq<nat>>, x: nat): nat
    requires IsTable(fnums)
  {
    Entry(fnums, x % 300) * Pow2(x / 300)
  }

  lemma SoundsHeight(fnums: seq<seq<nat>>, lo: byte, hi: byte, key: nat, row: nat)
    requires IsTable(fnums) && row < 25 && key < 96 && SoundsKey(fnums, lo, hi, key, row)
    ensures 25 * key + row < 2400 && Height(lo, hi) == HeightAt(fnums, 25 * key + row)
  {
    hide Pow2, IsTable;
    var x := 25 * key + row;
    DivModUnique(x, 300, key / 12, 25 * (key % 12) + row);
    DivModUnique(x % 300, 25, key % 12, row);
  }

  /** The table rises throughout the octave. */
  predicate Rises(fnums: seq<seq<nat>>)
    requires IsTable(fnums)
  {
    forall i, j :: 0 <= i <= j < 300 ==> Entry(fnums, i) <= Entry(fnums, j)
  }

  /** Its last entry is at most the first of the next octave. */
  predicate Joins(fnums: seq<seq<nat>>)
    requires IsTable(fnums)
  {
    Entry(fnums, 299) <= 2 * Entry(fnums, 0)
  }

  lemma Scaled(a: nat, b: nat, p: nat)
    requires p > 0
    ensures a * p <= b * p <==> a <= b
  {
    if a <= b {
      assert b * p == a * p + (b - a) * p;
    } else {
      assert a * p == b * p + (a - b) * p;
      assert (a - b) * p >= 1 * p by { MulMonotone(a - b, p); }
    }
  }

  lemma MulMonotone(n: nat, p: nat)
    requires n > 0
    ensures n * p >= p
  {
    assert n * p == (n - 1) * p + p;
  }

  lemma WithinOctave(fnums: seq<seq<nat>>, x: nat, y: nat)
    requires IsTable(fnums) && Rises(fnums) && x <= y && x / 300 == y / 300
    ensures HeightAt(fnums, x) <= HeightAt(fnums, y)
  {
    hide Pow2, IsTable, Entry;
    assert x % 300 <= y % 300;
    Scaled(Entry(fnums, x % 300), Entry(fnums, y % 300), Pow2(x / 300));
  }

  lemma OctaveUp(fnums: seq<seq<nat>>, o: nat)
    requires IsTable(fnums)
    ensures HeightAt(fnums, 300 * o + 299) <= HeightAt(fnums, 300 * (o + 1)) <==> Joins(fnums)
  {
    hide IsTable, Entry;
    DivModUnique(300 * o + 299, 300, o, 299);
    DivModUnique(300 * (o + 1), 300, o + 1, 0);
    var p := Pow2(o);
    assert Pow2(o + 1) == 2 * p;
    hide Pow2;
    assert Entry(fnums, 0) * (2 * p) == 2 * Entry(fnums, 0) * p;
    Scaled(Entry(fnums, 299), 2 * Entry(fnums, 0), p);
  }

  lemma {:induction false} Climbs(fnums: seq<seq<nat>>, x: nat, y: nat)
    requires IsTable(fnums) && Rises(fnums) && Joins(fnums) && x <= y
    ensures HeightAt(fnums, x) <= HeightAt(fnums, y)
    decreases y - x
  {
    hide HeightAt, Rises, Joins, IsTable;
    var o := x / 300;
    if o == y / 300 {
      WithinOctave(fnums, x, y);
    } else {
      Places(x, y);
      WithinOctave(fnums, x, 300 * o + 299);
      OctaveUp(fnums, o);
      Climbs(fnums, 300 * (o + 1), y);
    }
  }

  lemma Places(x: nat, y: nat)
    requires x <= y && x / 300 != y / 300
    ensures x <= 300 * (x / 300) + 299 && (300 * (x / 300) + 299) / 300 == x / 300
    ensures x < 300 * (x / 300 + 1) <= y
  {
    DivModUnique(300 * (x / 300) + 299, 300, x / 300, 299);
  }

  /** A larger bend never sounds lower, anywhere on the scale, if and only if the last entry of the table
      is at most twice the first; within an octave it never does. */
  lemma NeverLowerIff(fnums: seq<seq<nat>>)
    requires IsTable(fnums) && Rises(fnums)
    ensures (forall x, y :: 0 <= x <= y < 2400 ==> HeightAt(fnums, x) <= HeightAt(fnums, y)) <==> Joins(fnums)
    ensures forall x, y :: 0 <= x <= y && x / 300 == y / 300 ==> HeightAt(fnums, x) <= HeightAt(fnums, y)
  {
    hide HeightAt, Rises, IsTable, Joins;
    forall x, y | 0 <= x <= y && x / 300 == y / 300
      ensures HeightAt(fnums, x) <= HeightAt(fnums, y)
    {
      WithinOctave(fnums, x, y);
    }
    forall x, y | 0 <= x <= y < 2400 && Joins(fnums)
      ensures HeightAt(fnums, x) <= HeightAt(fnums, y)
    {
      Climbs(fnums, x, y);
    }
    OctaveUp(fnums, 0);
  }

  // The table of the synth

  predicate Below(a: seq<nat>, b: seq<nat>) {
    |a| == |b| == 12 && forall c :: 0 <= c < 12 ==> a[c] <= b[c] < 0x400
  }

  lemma Rows0(r: nat)
    requires 0 <= r < 4
    ensures Below(FNUMS[r], FNUMS[r + 1])
  {
  }

  lemma Rows4(r: nat)
    requires 4 <= r < 8
    ensures Below(FNUMS[r], FNUMS[r + 1])
  {
  }

  lemma Rows8(r: nat)
    requires 8 <= r < 12
    ensures Below(FNUMS[r], FNUMS[r + 1])
  {
  }

  lemma Rows12(r: nat)
    requires 12 <= r < 16
    ensures Below(FNUMS[r], FNUMS[r + 1])
  {
  }

  lemma Rows16(r: nat)
    requires 16 <= r < 20
    ensures Below(FNUMS[r], FNUMS[r + 1])
  {
  }

  lemma Rows20(r: nat)
    requires 20 <= r < 24
    ensures Below(FNUMS[r], FNUMS[r + 1])
  {
  }

  lemma RowBelowNext(r: nat)
    requires r < 24
    ensures |FNUMS| == 25 && Below(FNUMS[r], FNUMS[r + 1])
  {
    hide FNUMS, Below;
    TableCorners();
    if r < 4 { Rows0(r); }
    else if r < 8 { Rows4(r); }
    else if r < 12 { Rows8(r); }
    else if r < 16 { Rows12(r); }
    else if r < 20 { Rows16(r); }
    else { Rows20(r); }
  }

  lemma TableCorners()
    ensures |FNUMS| == 25 && |FNUMS[0]| == |FNUMS[24]| == 12
    ensures forall c :: 0 <= c < 11 ==> FNUMS[24][c] <= FNUMS[0][c + 1]
    ensures forall c :: 0 <= c < 12 ==> FNUMS[0][c] < 0x400
    ensures FNUMS[0][0] == 343 && FNUMS[24][11] == 688
  {
  }

  lemma {:induction false} EntriesRise(fnums: seq<seq<nat>>, i: nat, j: nat)
    requires IsTable(fnums) && i <= j < 300
    requires forall r, s :: 0 <= r < 24 && s == r + 1 ==> Below(fnums[r], fnums[s])
    requires forall c, d :: 0 <= c < 11 && d == c + 1 ==> fnums[24][c] <= fnums[0][d]
    ensures Entry(fnums, i) <= Entry(fnums, j)
    decreases j - i
  {
    if i < j {
      var r, c := i % 25, i / 25;
      if r < 24 {
        DivModUnique(i + 1, 25, c, r + 1);
        assert Below(fnums[r], fnums[r + 1]);
      } else {
        DivModUnique(i + 1, 25, c + 1, 0);
      }
      EntriesRise(fnums, i + 1, j);
    }
  }

  /** The table rises, and yet its last entry is above the first of the next octave: a bend across an
      octave can sound lower than a smaller one. */
  lemma FnumsDip()
    ensures IsTable(FNUMS) && Rises(FNUMS) && !Joins(FNUMS)
    ensures HeightAt(FNUMS, 299) == 688 && HeightAt(FNUMS, 300) == 686
  {
    hide FNUMS;
    TableCorners();
    forall r | 0 <= r < 24
      ensures Below(FNUMS[r], FNUMS[r + 1])
    {
      RowBelowNext(r);
    }
    assert forall r, s :: 0 <= r < 24 && s == r + 1 ==> Below(FNUMS[r], FNUMS[s]);
    forall i | 0 <= i < 25
      ensures |FNUMS[i]| == 12 && forall j :: 0 <= j < 12 ==> FNUMS[i][j] < 0x400
    {
      if i > 0 { RowBelowNext(i - 1); }
    }
    forall i, j | 0 <= i <= j < 300
      ensures Entry(FNUMS, i) <= Entry(FNUMS, j)
    {
      EntriesRise(FNUMS, i, j);
    }
    assert Pow2(0) == 1 && Pow2(1) == 2;
  }

  /** Below the scale a bend stays on the lowest key but still picks its row: a bend down of one step from
      the lowest key is heard as one up of 24. */
  lemma BelowScaleJumps(fnums: seq<seq<nat>>, lo: byte, hi: byte, steps: int)
    requires IsTable(fnums) && -300 <= steps < 0 && SoundsKey(fnums, lo, hi, steps / STEPS, steps % STEPS)
    ensures Height(lo, hi) == HeightAt(fnums, steps % STEPS)
  {
    assert Pow2(0) == 1;
  }

  // The history of a song, at its end

  /** Events that neither concern a voice nor start the song anew. */
  predicate LeavesAlone(ev: Event, v: nat) {
    match ev
    case Note(voice, _) => voice != v
    case Off(voice) => voice != v
    case Bend(voice, _) => voice != v
    case Restart => false
    case _ => true
  }

  lemma {:induction false} StaysAlone(s: Synth, evs: seq<Event>, v: nat)
    requires IsSynth(s) && v < BASS_DRUM && forall ev :: ev in evs ==> LeavesAlone(ev, v)
    ensures AfterAll(s, evs).parts[v] == s.parts[v]
  {
    hide Bent, IsRange;
    if evs != [] {
      var n := |evs| - 1;
      assert LeavesAlone(evs[n], v);
      OthersFollow(AfterAll(s, evs[..n]), evs[n], v);
      StaysAlone(s, evs[..n], v);
    }
  }

  lemma {:induction false} AfterConcat(s: Synth, a: seq<Event>, b: seq<Event>)
    requires IsSynth(s)
    ensures AfterAll(s, a + b) == AfterAll(AfterAll(s, a), b)
    decreases |b|
  {
    hide After, IsSynth;
    if b == [] {
      assert a + b == a;
    } else {
      assert (a + b)[..|a + b| - 1] == a + b[..|b| - 1];
      AfterConcat(s, a, b[..|b| - 1]);
    }
  }

  /** Whatever came before: after a range of h half-tones, a bend and a note-on for a voice, and then
      nothing more for it, its registers hold the note twelve half-tones below, moved by the bend's part
      of h half-tones in 25ths, rounded down, with the key on. */
  lemma LastNoteHeard(fnums: seq<seq<nat>>, s: Synth, evs: seq<Event>, v: nat, h: byte, bend: uint16, note: int, rest: seq<Event>, lo: byte, hi: byte)
    requires IsTable(fnums) && IsSynth(s) && v < BASS_DRUM && 1 <= h <= 12 && note != 0
    requires forall ev :: ev in rest ==> LeavesAlone(ev, v)
    requires Heard(fnums, lo, hi, AfterAll(s, evs + [Range(h), Bend(v, bend), Note(v, note)] + rest).parts[v])
    ensures var steps := (bend - 0x2000) * (25 * h) / 0x2000;
            hi >= 0x20 && SoundsKey(fnums, lo, hi, note - 12 + steps / 25, steps % 25)
  {
    hide IsTable, SoundsKey, AfterAll;
    var three := [Range(h), Bend(v, bend), Note(v, note)];
    AfterConcat(s, evs + three, rest);
    AfterConcat(s, evs, three);
    var s0 := AfterAll(s, evs);
    ThreeEvents(s0, v, h, bend, note);
    StaysAlone(AfterAll(s0, three), rest, v);
    StepsApart(AfterAll(s0, three).parts[v].tuning);
  }

  lemma ThreeEvents(s: Synth, v: nat, h: byte, bend: uint16, note: int)
    requires IsSynth(s) && v < BASS_DRUM && 1 <= h <= 12 && note != 0
    ensures var p := AfterAll(s, [Range(h), Bend(v, bend), Note(v, note)]).parts[v];
            p.note == Some(note - 12) && p.key && Steps(p.tuning) == (bend - 0x2000) * (25 * h) / 0x2000
  {
    hide IsRange, Bent;
    var a, b := [Range(h)], [Range(h), Bend(v, bend)];
    var s1 := After(s, Range(h));
    var s2 := After(s1, Bend(v, bend));
    assert a[..0] == [] && AfterAll(s, []) == s && AfterAll(s, a) == s1;
    assert b[..1] == a && AfterAll(s, b) == s2;
    assert [Range(h), Bend(v, bend), Note(v, note)][..2] == b;
    assert s1.step == 25 * h;
  }
}
