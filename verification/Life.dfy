// The Game of Life program: neighbour counting by cases, one generation row by
// row, the text encoding of a generation, and its sequential and threaded
// computation. A generation file is re-read before the next one is computed.
module Life {
  type Grid = seq<seq<char>>

  // m rows of n cells each; both at least 2.
  predicate Shape(g: Grid, m: nat, n: nat) {
    m >= 2 && n >= 2 && |g| == m && forall i :: 0 <= i < m ==> |g[i]| == n
  }

  // ---- What a generation is -----------------------------------------------------

  // 1 for a living cell, 0 for another or none.
  function Cell(g: Grid, i: int, j: int): nat {
    if 0 <= i < |g| && 0 <= j < |g[i]| && g[i][j] == '1' then 1 else 0
  }

  // Living cells among the eight around (i, j), as far as they exist.
  function Neighbours(g: Grid, i: int, j: int): nat {
    Cell(g, i - 1, j - 1) + Cell(g, i - 1, j) + Cell(g, i - 1, j + 1) +
    Cell(g, i, j - 1) + Cell(g, i, j + 1) +
    Cell(g, i + 1, j - 1) + Cell(g, i + 1, j) + Cell(g, i + 1, j + 1)
  }

  // A dead cell comes alive with four neighbours; another one survives with
  // three to six.
  function Next(c: char, count: nat): char {
    if c == '0' then if count == 4 then '1' else '0'
    else if count <= 2 || count >= 7 then '0' else '1'
  }

  // A cell lives on with three to six living neighbours, comes alive with four,
  // and is dead or alive and nothing else afterwards.
  lemma NextLivesIff(c: char, count: nat)
    ensures Next(c, count) == '1' <==> count == 4 || (c != '0' && 3 <= count <= 6)
    ensures Next(c, count) == '0' || Next(c, count) == '1'
  {
  }

  function NextRow(g: Grid, m: nat, n: nat, i: nat): (row: seq<char>)
    requires Shape(g, m, n) && i < m
    ensures |row| == n
  {
    seq(n, j requires 0 <= j < n => Next(g[i][j], Neighbours(g, i, j)))
  }

  function Step(g: Grid, m: nat, n: nat): (h: Grid)
    requires Shape(g, m, n)
    ensures Shape(h, m, n)
  {
    seq(m, i requires 0 <= i < m => NextRow(g, m, n, i))
  }

  function Iterate(g: Grid, m: nat, n: nat, k: nat): (h: Grid)
    requires Shape(g, m, n)
    ensures Shape(h, m, n)
  {
    if k == 0 then g else Step(Iterate(g, m, n, k - 1), m, n)
  }

  // ---- living_cell_count and get_next_generation_matrix -----------------------------

  // The nine cases of corners, edges and inner cells.
  method LivingCellCount(g: Grid, i: nat, j: nat, horizontal: nat, vertical: nat) returns (ret: nat)
    requires Shape(g, horizontal + 1, vertical + 1) && i <= horizontal && j <= vertical
    ensures ret == Neighbours(g, i, j)
  {
    ret := 0;
    if i == 0 {
      if j == 0 {
        if g[0][1] == '1' { ret := ret + 1; }
        if g[1][0] == '1' { ret := ret + 1; }
        if g[1][1] == '1' { ret := ret + 1; }
      } else if j == vertical {
        if g[0][vertical - 1] == '1' { ret := ret + 1; }
        if g[1][vertical] == '1' { ret := ret + 1; }
        if g[1][vertical - 1] == '1' { ret := ret + 1; }
      } else {
        if g[i][j - 1] == '1' { ret := ret + 1; }
        if g[i][j + 1] == '1' { ret := ret + 1; }
        if g[i + 1][j - 1] == '1' { ret := ret + 1; }
        if g[i + 1][j] == '1' { ret := ret + 1; }
        if g[i + 1][j + 1] == '1' { ret := ret + 1; }
      }
    } else if i == horizontal {
      if j == 0 {
        if g[horizontal - 1][0] == '1' { ret := ret + 1; }
        if g[horizontal - 1][1] == '1' { ret := ret + 1; }
        if g[horizontal][1] == '1' { ret := ret + 1; }
      } else if j == vertical {
        if g[horizontal - 1][vertical] == '1' { ret := ret + 1; }
        if g[horizontal - 1][vertical - 1] == '1' { ret := ret + 1; }
        if g[horizontal][vertical - 1] == '1' { ret := ret + 1; }
      } else {
        if g[i][j - 1] == '1' { ret := ret + 1; }
        if g[i][j + 1] == '1' { ret := ret + 1; }
        if g[i - 1][j - 1] == '1' { ret := ret + 1; }
        if g[i - 1][j] == '1' { ret := ret + 1; }
        if g[i - 1][j + 1] == '1' { ret := ret + 1; }
      }
    } else {
      if j == 0 {
        if g[i - 1][0] == '1' { ret := ret + 1; }
        if g[i + 1][1] == '1' { ret := ret + 1; }
        if g[i - 1][1] == '1' { ret := ret + 1; }
        if g[i][1] == '1' { ret := ret + 1; }
        if g[i + 1][0] == '1' { ret := ret + 1; }
      } else if j == vertical {
        if g[i - 1][vertical] == '1' { ret := ret + 1; }
        if g[i + 1][vertical] == '1' { ret := ret + 1; }
        if g[i - 1][vertical - 1] == '1' { ret := ret + 1; }
        if g[i][vertical - 1] == '1' { ret := ret + 1; }
        if g[i + 1][vertical - 1] == '1' { ret := ret + 1; }
      } else {
        if g[i][j - 1] == '1' { ret := ret + 1; }
        if g[i - 1][j - 1] == '1' { ret := ret + 1; }
        if g[i + 1][j - 1] == '1' { ret := ret + 1; }
        if g[i - 1][j] == '1' { ret := ret + 1; }
        if g[i + 1][j] == '1' { ret := ret + 1; }
        if g[i - 1][j + 1] == '1' { ret := ret + 1; }
        if g[i][j + 1] == '1' { ret := ret + 1; }
        if g[i + 1][j + 1] == '1' { ret := ret + 1; }
      }
    }
  }

  // get_next_generation_matrix: row i of the next generation
  method NextGenerationRow(g: Grid, next: array2<char>, i: nat, horizontal: nat, vertical: nat)
    requires Shape(g, horizontal + 1, vertical + 1) && i <= horizontal
    requires next.Length0 == horizontal + 1 && next.Length1 == vertical + 1
    modifies next
    ensures forall j :: 0 <= j <= vertical ==> next[i, j] == NextRow(g, horizontal + 1, vertical + 1, i)[j]
    ensures forall r, j :: 0 <= r <= horizontal && r != i && 0 <= j <= vertical ==> next[r, j] == old(next[r, j])
  {
    for j := 0 to vertical + 1
      invariant forall l :: 0 <= l < j ==> next[i, l] == NextRow(g, horizontal + 1, vertical + 1, i)[l]
      invariant forall r, l :: 0 <= r <= horizontal && r != i && 0 <= l <= vertical ==> next[r, l] == old(next[r, l])
    {
      var tmp := LivingCellCount(g, i, j, horizontal, vertical);
      if g[i][j] == '0' {
        if tmp == 4 { next[i, j] := '1'; } else { next[i, j] := '0'; }
      } else {
        if tmp <= 2 || tmp >= 7 { next[i, j] := '0'; } else { next[i, j] := '1'; }
      }
    }
  }

  // ---- Files -----------------------------------------------------------------------------

  // Character k of a written row: cells separated by blanks, ended by a newline.
  function RowChar(row: seq<char>, k: nat): char
    requires k < 2 * |row|
  {
    if k % 2 == 0 then row[k / 2] else if k == 2 * |row| - 1 then '\n' else ' '
  }

  function EncodeRow(row: seq<char>): (s: seq<char>)
    ensures |s| == 2 * |row|
  {
    seq(2 * |row|, k requires 0 <= k < 2 * |row| => RowChar(row, k))
  }

  // The file of a generation: its rows one after the other.
  function Encode(g: Grid): seq<char>
  {
    if g == [] then [] else EncodeRow(g[0]) + Encode(g[1..])
  }

  // Reading m rows of 2 * n characters back.
  function DecodeRow(s: seq<char>): seq<char> {
    seq(|s| / 2, j requires 0 <= j < |s| / 2 => s[2 * j])
  }

  function Decode(file: seq<char>, m: nat, width: nat): Grid {
    if m == 0 || |file| < width then [] else [DecodeRow(file[..width])] + Decode(file[width..], m - 1, width)
  }

  // Writing a generation and reading it back gives the same cells.
  lemma {:induction false} RoundTrip(g: Grid, n: nat)
    requires forall i :: 0 <= i < |g| ==> |g[i]| == n
    ensures Decode(Encode(g), |g|, 2 * n) == g
  {
    if g != [] {
      RoundTrip(g[1..], n);
      var f := Encode(g);
      assert f[..2 * n] == EncodeRow(g[0]) && f[2 * n..] == Encode(g[1..]);
      assert DecodeRow(EncodeRow(g[0])) == g[0];
      assert g == [g[0]] + g[1..];
    }
  }

  // a * w, as repeated addition.
  function Off(a: nat, w: nat): nat {
    if a == 0 then 0 else Off(a - 1, w) + w
  }

  lemma {:induction false} OffIsProduct(a: nat, w: nat)
    ensures Off(a, w) == a * w
  {
    if a > 0 { OffIsProduct(a - 1, w); }
  }

  lemma {:induction false} OffMono(a: nat, b: nat, w: nat)
    requires a <= b
    ensures Off(a, w) <= Off(b, w)
  {
    if a < b { OffMono(a, b - 1, w); }
  }

  // Where each row of a generation is in its file.
  lemma {:induction false} RowPlace(g: Grid, w: nat, i: nat)
    requires i <= |g| && forall r :: 0 <= r < |g| ==> 2 * |g[r]| == w
    ensures Off(i, w) <= |Encode(g)|
    ensures i == |g| ==> |Encode(g)| == Off(i, w)
    ensures i < |g| ==> Off(i + 1, w) <= |Encode(g)| && Encode(g)[Off(i, w)..Off(i + 1, w)] == EncodeRow(g[i])
  {
    if g != [] && i > 0 {
      RowPlace(g[1..], w, i - 1);
      OffShift(i - 1, w);
      OffShift(i, w);
      if i < |g| {
        var tail := Encode(g[1..]);
        assert Encode(g)[Off(i, w)..Off(i + 1, w)] == tail[Off(i - 1, w)..Off(i, w)];
      }
    }
  }

  lemma OffShift(a: nat, w: nat)
    ensures Off(a + 1, w) == w + Off(a, w)
  {
  }

  lemma RowLayout(row: seq<char>, j: nat)
    requires j < |row|
    ensures EncodeRow(row)[2 * j] == row[j]
    ensures EncodeRow(row)[2 * j + 1] == if j == |row| - 1 then '\n' else ' '
  {
    assert EncodeRow(row)[2 * j] == RowChar(row, 2 * j) && EncodeRow(row)[2 * j + 1] == RowChar(row, 2 * j + 1);
  }

  lemma SliceAt(s: seq<char>, a: nat, b: nat, k: nat)
    requires a <= b <= |s| && k < b - a
    ensures s[a..b][k] == s[a + k]
  {
  }

  // The layout of a generation's file: cell j of row i at twice its index, each
  // followed by a blank, or by a newline at the end of the row.
  lemma FileLayout(g: Grid, m: nat, n: nat, i: nat, j: nat)
    requires Shape(g, m, n) && i < m && j < n
    ensures Off(i, 2 * n) + 2 * j + 1 < |Encode(g)|
    ensures Encode(g)[Off(i, 2 * n) + 2 * j] == g[i][j]
    ensures Encode(g)[Off(i, 2 * n) + 2 * j + 1] == if j == n - 1 then '\n' else ' '
  {
    RowPlace(g, 2 * n, i);
    OffShift(i, 2 * n);
    RowLayout(g[i], j);
    SliceAt(Encode(g), Off(i, 2 * n), Off(i + 1, 2 * n), 2 * j);
    SliceAt(Encode(g), Off(i, 2 * n), Off(i + 1, 2 * n), 2 * j + 1);
  }

  // write at an offset; a gap before it reads as zero bytes
  function WriteAt(file: seq<char>, off: nat, data: seq<char>): (f: seq<char>)
    ensures |f| == if off + |data| > |file| then off + |data| else |file|
    ensures f[off..off + |data|] == data
    ensures forall p :: 0 <= p < |file| && !(off <= p < off + |data|) ==> f[p] == file[p]
  {
    var base := if |file| < off then file + seq(off - |file|, _ => '\0') else file;
    var rest := if off + |data| < |base| then base[off + |data|..] else [];
    base[..off] + data + rest
  }

  lemma WriteElsewhere(file: seq<char>, off: nat, data: seq<char>, a: nat, b: nat)
    requires a <= b <= |file| && (b <= off || off + |data| <= a)
    ensures b <= |WriteAt(file, off, data)| && WriteAt(file, off, data)[a..b] == file[a..b]
  {
    var f := WriteAt(file, off, data);
    forall p | a <= p < b ensures f[p] == file[p] { }
  }

  // ---- Sequential mode ---------------------------------------------------------------------

  lemma {:induction false} EncodeAppend(g: Grid, row: seq<char>)
    ensures Encode(g + [row]) == Encode(g) + EncodeRow(row)
  {
    if g == [] {
      assert [row][1..] == [] && [] + [row] == [row];
    } else {
      assert (g + [row])[1..] == g[1..] + [row];
      EncodeAppend(g[1..], row);
    }
  }

  // Encoding one row of the matrix into the buffer that is written.
  method RowBuffer(next: array2<char>, i: nat, n: nat, ghost row: seq<char>) returns (buffer: seq<char>)
    requires i < next.Length0 && next.Length1 == n == |row| && forall j :: 0 <= j < n ==> next[i, j] == row[j]
    ensures buffer == EncodeRow(row)
  {
    buffer := [];
    for j := 0 to n
      invariant |buffer| == 2 * j && forall k :: 0 <= k < 2 * j ==> buffer[k] == RowChar(row, k)
    {
      buffer := buffer + [next[i, j], if j == n - 1 then '\n' else ' '];
    }
  }

  // One generation of sequential mode: all rows, then the file.
  method WriteGeneration(g: Grid, m: nat, n: nat) returns (file: seq<char>)
    requires Shape(g, m, n)
    ensures file == Encode(Step(g, m, n))
  {
    var next := new char[m, n];
    ghost var h := Step(g, m, n);
    for i := 0 to m
      invariant forall r, j :: 0 <= r < i && 0 <= j < n ==> next[r, j] == h[r][j]
    {
      NextGenerationRow(g, next, i, m - 1, n - 1);
    }
    file := [];
    for i := 0 to m
      invariant file == Encode(h[..i])
      invariant forall r, j :: 0 <= r < m && 0 <= j < n ==> next[r, j] == h[r][j]
    {
      assert |h[i]| == n && forall j :: 0 <= j < n ==> next[i, j] == h[i][j];
      var buffer := RowBuffer(next, i, n, h[i]);
      EncodeAppend(h[..i], h[i]);
      assert h[..i + 1] == h[..i] + [h[i]];
      file := file + buffer;
    }
    assert h[..m] == h;
  }

  // Sequential mode for G generations: the output encodes the G-fold step.
  method RunSequential(g: Grid, m: nat, n: nat, generations: nat) returns (file: seq<char>)
    requires Shape(g, m, n) && generations >= 1
    ensures file == Encode(Iterate(g, m, n, generations))
  {
    var matrix := g;
    file := [];
    for k := 0 to generations
      invariant k == 0 ==> matrix == g
      invariant k > 0 ==> file == Encode(Iterate(g, m, n, k))
    {
      if k > 0 {
        RoundTrip(Iterate(g, m, n, k), n);
        matrix := Decode(file, m, 2 * n);
      }
      assert matrix == Iterate(g, m, n, k);
      file := WriteGeneration(matrix, m, n);
    }
  }

  // ---- Threaded mode ------------------------------------------------------------------------

  // Rows per thread, ceil(m / threads).
  function Handle(m: nat, threads: nat): nat
    requires threads >= 1
  {
    if m % threads != 0 then m / threads + 1 else m / threads
  }

  lemma HandleCovers(m: nat, threads: nat)
    requires threads >= 1
    ensures m <= Off(threads, Handle(m, threads)) && (m >= 1 ==> Handle(m, threads) >= 1)
  {
    OffIsProduct(threads, Handle(m, threads));
    Ceiling(m, threads, m / threads, m % threads);
  }

  // The chunks are no longer than they need be.
  lemma HandleIsCeiling(m: nat, threads: nat)
    requires threads >= 1 && m >= 1
    ensures threads * (Handle(m, threads) - 1) < m <= threads * Handle(m, threads)
  {
    assert m == threads * (m / threads) + m % threads;
    Ceiling(m, threads, m / threads, m % threads);
    assert threads * (m / threads - 1) == threads * (m / threads) - threads;
  }

  lemma Ceiling(m: nat, t: nat, q: nat, r: nat)
    requires m == t * q + r && r < t
    ensures m <= t * (if r != 0 then q + 1 else q)
  {
    assert t * (q + 1) == t * q + t;
  }

  // The thread and turn that handle a row.
  lemma {:induction false} OwnerOf(row: nat, h: nat, threads: nat) returns (t: nat, i: nat)
    requires row < Off(threads, h)
    ensures t < threads && i < h && Off(t, h) + i == row
  {
    if row >= Off(threads - 1, h) {
      t, i := threads - 1, row - Off(threads - 1, h);
    } else {
      t, i := OwnerOf(row, h, threads - 1);
    }
  }

  // Turn i of thread t handles the row.
  predicate Handles(m: nat, threads: nat, t: nat, i: nat, row: nat)
    requires threads >= 1
  {
    t < threads && i < Handle(m, threads) && Off(t, Handle(m, threads)) + i == row
  }

  // The chunks of thread_func, cut off at m, partition the rows: every row is
  // handled by some thread at some turn, and by no other.
  lemma RowsPartitioned(m: nat, threads: nat, row: nat)
    requires threads >= 1 && row < m
    ensures exists t: nat, i: nat :: Handles(m, threads, t, i, row)
    ensures forall t: nat, i: nat, u: nat, j: nat ::
      Handles(m, threads, t, i, row) && Handles(m, threads, u, j, row) ==> t == u && i == j
  {
    HandleCovers(m, threads);
    var h := Handle(m, threads);
    var t0, i0 := OwnerOf(row, h, threads);
    assert Handles(m, threads, t0, i0, row);
    forall t: nat, i: nat, u: nat, j: nat | Handles(m, threads, t, i, row) && Handles(m, threads, u, j, row)
      ensures t == u && i == j
    {
      if u < t { OffMono(u + 1, t, h); } else if u > t { OffMono(t + 1, u, h); }
    }
  }

  // A thread in its loop: rows handled, cells of the current row computed (n + 1
  // once its buffer is filled), and the buffer. Each thread has its own
  // descriptor, so its own offset.
  datatype Thread = Thread(done: nat, j: nat, buffer: seq<char>)

  // The threads of one generation with the matrix and the file they share.
  datatype Threads = Threads(all: seq<Thread>, next: Grid, file: seq<char>)

  // The row a thread is at.
  function RowOf(h: nat, s: Threads, t: nat): nat
    requires t < |s.all|
  {
    Off(t, h) + s.all[t].done
  }

  predicate CanStep(m: nat, h: nat, s: Threads, t: nat) {
    t < |s.all| && s.all[t].done < h && RowOf(h, s, t) < m
  }

  // One step of thread_func's loop: compute one cell into the shared matrix,
  // encode the row from there into the buffer, or write the buffer at the row's
  // offset.
  function ThreadStep(g: Grid, m: nat, n: nat, h: nat, s: Threads, t: nat): Threads
    requires Shape(g, m, n) && Shape(s.next, m, n) && CanStep(m, h, s, t)
  {
    var r, th := RowOf(h, s, t), s.all[t];
    if th.j < n then
      s.(all := s.all[t := th.(j := th.j + 1)],
         next := s.next[r := s.next[r][th.j := Next(g[r][th.j], Neighbours(g, r, th.j))]])
    else if th.j == n then s.(all := s.all[t := th.(j := n + 1, buffer := EncodeRow(s.next[r]))])
    else s.(all := s.all[t := Thread(th.done + 1, 0, [])], file := WriteAt(s.file, Off(r, 2 * n), th.buffer))
  }

  // An interleaving is the sequence of thread numbers in the order of their steps.
  ghost predicate Possible(g: Grid, m: nat, n: nat, h: nat, s: Threads, order: seq<nat>)
    requires Shape(g, m, n) && Shape(s.next, m, n)
    decreases |order|
  {
    order == [] || (CanStep(m, h, s, order[0])
      && Possible(g, m, n, h, ThreadStep(g, m, n, h, s, order[0]), order[1..]))
  }

  ghost function RunThreads(g: Grid, m: nat, n: nat, h: nat, s: Threads, order: seq<nat>): Threads
    requires Shape(g, m, n) && Shape(s.next, m, n) && Possible(g, m, n, h, s, order)
    decreases |order|
  {
    if order == [] then s else RunThreads(g, m, n, h, ThreadStep(g, m, n, h, s, order[0]), order[1..])
  }

  // All threads have left their loop and can be joined.
  ghost predicate Joined(m: nat, h: nat, s: Threads) {
    forall t :: 0 <= t < |s.all| ==> !CanStep(m, h, s, t)
  }

  // Row i of the file is as it should be.
  ghost predicate HasRow(g: Grid, m: nat, n: nat, file: seq<char>, i: nat)
    requires Shape(g, m, n) && i < m
  {
    Off(i + 1, 2 * n) <= |file| && file[Off(i, 2 * n)..Off(i + 1, 2 * n)] == EncodeRow(NextRow(g, m, n, i))
  }

  ghost predicate Handled(g: Grid, m: nat, n: nat, h: nat, file: seq<char>, t: nat, i: nat)
    requires Shape(g, m, n)
  {
    Off(t, h) + i < m ==> HasRow(g, m, n, file, Off(t, h) + i)
  }

  // What a thread has computed of its current row is right, in the shared matrix
  // and then in its buffer.
  ghost predicate ThreadOk(g: Grid, m: nat, n: nat, h: nat, s: Threads, t: nat)
    requires Shape(g, m, n) && Shape(s.next, m, n) && t < |s.all|
  {
    var r, th := RowOf(h, s, t), s.all[t];
    && th.j <= n + 1 && (!CanStep(m, h, s, t) ==> th.j == 0)
    && (r < m ==> forall l :: 0 <= l < th.j && l < n ==> s.next[r][l] == NextRow(g, m, n, r)[l])
    && (r < m && th.j == n + 1 ==> th.buffer == EncodeRow(NextRow(g, m, n, r)))
  }

  ghost predicate FileOk(g: Grid, m: nat, n: nat, h: nat, s: Threads)
    requires Shape(g, m, n)
  {
    && |s.file| <= Off(m, 2 * n)
    && forall t, i :: 0 <= t < |s.all| && 0 <= i < s.all[t].done ==> Handled(g, m, n, h, s.file, t, i)
  }

  ghost predicate ThreadsOk(g: Grid, m: nat, n: nat, h: nat, s: Threads)
    requires Shape(g, m, n)
  {
    Shape(s.next, m, n) && FileOk(g, m, n, h, s) && forall t :: 0 <= t < |s.all| ==> ThreadOk(g, m, n, h, s, t)
  }

  // Two threads in their loops are at different rows.
  lemma RowsApart(m: nat, h: nat, s: Threads, t: nat, u: nat)
    requires CanStep(m, h, s, t) && CanStep(m, h, s, u) && t != u
    ensures RowOf(h, s, t) != RowOf(h, s, u)
  {
    if t < u { OffMono(t + 1, u, h); } else { OffMono(u + 1, t, h); }
  }

  // Writing row `index` of width w leaves another row where it is.
  lemma WriteOther(file: seq<char>, w: nat, index: nat, data: seq<char>, i: nat)
    requires |data| == w && i != index && Off(i + 1, w) <= |file|
    ensures var f := WriteAt(file, Off(index, w), data);
      Off(i + 1, w) <= |f| && f[Off(i, w)..Off(i + 1, w)] == file[Off(i, w)..Off(i + 1, w)]
  {
    if i < index { OffMono(i + 1, index, w); } else { OffMono(index + 1, i, w); }
    OffShift(index, w);
    WriteElsewhere(file, Off(index, w), data, Off(i, w), Off(i + 1, w));
  }

  lemma WriteSelf(file: seq<char>, w: nat, index: nat, data: seq<char>)
    requires |data| == w
    ensures var f := WriteAt(file, Off(index, w), data);
      Off(index + 1, w) <= |f| && f[Off(index, w)..Off(index + 1, w)] == data
  {
    OffShift(index, w);
  }

  // Writing a row puts that row in place and disturbs no other.
  lemma WriteRow(g: Grid, m: nat, n: nat, file: seq<char>, index: nat, i: nat)
    requires Shape(g, m, n) && index < m && i < m && (i == index || HasRow(g, m, n, file, i))
    ensures HasRow(g, m, n, WriteAt(file, Off(index, 2 * n), EncodeRow(NextRow(g, m, n, index))), i)
  {
    var row := EncodeRow(NextRow(g, m, n, index));
    if i != index {
      WriteOther(file, 2 * n, index, row, i);
    } else {
      WriteSelf(file, 2 * n, index, row);
    }
  }

  // file' has the rows of file, and row `index`.
  ghost predicate GainsRow(g: Grid, m: nat, n: nat, file: seq<char>, file': seq<char>, index: nat)
    requires Shape(g, m, n)
  {
    forall i :: 0 <= i < m && (i == index || HasRow(g, m, n, file, i)) ==> HasRow(g, m, n, file', i)
  }

  lemma StepHandled(g: Grid, m: nat, n: nat, h: nat, file: seq<char>, file': seq<char>, index: nat, u: nat, i: nat)
    requires Shape(g, m, n) && GainsRow(g, m, n, file, file', index)
    requires Off(u, h) + i == index || Handled(g, m, n, h, file, u, i)
    ensures Handled(g, m, n, h, file', u, i)
  {
  }

  // The other threads: their rows of the shared matrix are not touched.
  lemma OtherThreadOk(g: Grid, m: nat, n: nat, h: nat, s: Threads, t: nat, u: nat)
    requires Shape(g, m, n) && ThreadsOk(g, m, n, h, s) && CanStep(m, h, s, t) && u < |s.all| && u != t
    ensures ThreadOk(g, m, n, h, ThreadStep(g, m, n, h, s, t), u)
  {
    assert ThreadOk(g, m, n, h, s, u);
    if CanStep(m, h, s, u) {
      RowsApart(m, h, s, t, u);
    }
  }

  lemma OwnThreadOk(g: Grid, m: nat, n: nat, h: nat, s: Threads, t: nat)
    requires Shape(g, m, n) && ThreadsOk(g, m, n, h, s) && CanStep(m, h, s, t)
    ensures ThreadOk(g, m, n, h, ThreadStep(g, m, n, h, s, t), t)
  {
    assert ThreadOk(g, m, n, h, s, t);
    var r := RowOf(h, s, t);
    if s.all[t].j == n {
      assert s.next[r] == NextRow(g, m, n, r);
    }
  }

  lemma StepFileOk(g: Grid, m: nat, n: nat, h: nat, s: Threads, t: nat)
    requires Shape(g, m, n) && ThreadsOk(g, m, n, h, s) && CanStep(m, h, s, t)
    ensures FileOk(g, m, n, h, ThreadStep(g, m, n, h, s, t))
  {
    assert ThreadOk(g, m, n, h, s, t);
    if s.all[t].j == n + 1 {
      var s', r := ThreadStep(g, m, n, h, s, t), RowOf(h, s, t);
      OffMono(r + 1, m, 2 * n);
      OffShift(r, 2 * n);
      forall i | 0 <= i < m && (i == r || HasRow(g, m, n, s.file, i)) ensures HasRow(g, m, n, s'.file, i) {
        WriteRow(g, m, n, s.file, r, i);
      }
      forall u, i | 0 <= u < |s'.all| && 0 <= i < s'.all[u].done ensures Handled(g, m, n, h, s'.file, u, i) {
        assert (u == t && i == s.all[t].done) || i < s.all[u].done;
        StepHandled(g, m, n, h, s.file, s'.file, r, u, i);
      }
    }
  }

  lemma ThreadStepOk(g: Grid, m: nat, n: nat, h: nat, s: Threads, t: nat)
    requires Shape(g, m, n) && ThreadsOk(g, m, n, h, s) && CanStep(m, h, s, t)
    ensures ThreadsOk(g, m, n, h, ThreadStep(g, m, n, h, s, t))
  {
    var s' := ThreadStep(g, m, n, h, s, t);
    StepFileOk(g, m, n, h, s, t);
    forall u | 0 <= u < |s'.all| ensures ThreadOk(g, m, n, h, s', u) {
      if u == t { OwnThreadOk(g, m, n, h, s, t); } else { OtherThreadOk(g, m, n, h, s, t, u); }
    }
  }

  lemma {:induction false} ThreadsRunOk(g: Grid, m: nat, n: nat, h: nat, s: Threads, order: seq<nat>)
    requires Shape(g, m, n) && ThreadsOk(g, m, n, h, s) && Possible(g, m, n, h, s, order)
    ensures ThreadsOk(g, m, n, h, RunThreads(g, m, n, h, s, order))
    ensures |RunThreads(g, m, n, h, s, order).all| == |s.all|
    decreases |order|
  {
    if order != [] {
      ThreadStepOk(g, m, n, h, s, order[0]);
      ThreadsRunOk(g, m, n, h, ThreadStep(g, m, n, h, s, order[0]), order[1..]);
    }
  }

  // A file with every row in place and nothing beyond is the encoded generation.
  lemma {:induction false} AllRows(g: Grid, m: nat, n: nat, file: seq<char>, i: nat)
    requires Shape(g, m, n) && i <= m && forall r :: 0 <= r < i ==> HasRow(g, m, n, file, r)
    ensures Off(i, 2 * n) <= |file| && Off(i, 2 * n) <= |Encode(Step(g, m, n))|
    ensures file[..Off(i, 2 * n)] == Encode(Step(g, m, n))[..Off(i, 2 * n)]
  {
    var w, h := 2 * n, Step(g, m, n);
    RowPlace(h, w, i);
    if i > 0 {
      AllRows(g, m, n, file, i - 1);
      RowPlace(h, w, i - 1);
      assert HasRow(g, m, n, file, i - 1) && h[i - 1] == NextRow(g, m, n, i - 1);
      Extend(file, Encode(h), Off(i - 1, w), Off(i, w));
    }
  }

  lemma Extend(f: seq<char>, e: seq<char>, a: nat, b: nat)
    requires a <= b <= |f| && b <= |e| && f[..a] == e[..a] && f[a..b] == e[a..b]
    ensures f[..b] == e[..b]
  {
    assert f[..b] == f[..a] + f[a..b];
    assert e[..b] == e[..a] + e[a..b];
  }

  lemma JoinedHasRow(g: Grid, m: nat, n: nat, threads: nat, s: Threads, r: nat)
    requires Shape(g, m, n) && threads >= 1 && |s.all| == threads && r < m
    requires ThreadsOk(g, m, n, Handle(m, threads), s) && Joined(m, Handle(m, threads), s)
    ensures HasRow(g, m, n, s.file, r)
  {
    var h := Handle(m, threads);
    HandleCovers(m, threads);
    var t, i := OwnerOf(r, h, threads);
    assert !CanStep(m, h, s, t);
    assert Handled(g, m, n, h, s.file, t, i);
  }

  lemma WholeFile(g: Grid, m: nat, n: nat, file: seq<char>)
    requires Shape(g, m, n) && |file| <= Off(m, 2 * n) && forall r :: 0 <= r < m ==> HasRow(g, m, n, file, r)
    ensures file == Encode(Step(g, m, n))
  {
    AllRows(g, m, n, file, m);
    RowPlace(Step(g, m, n), 2 * n, m);
  }

  // One generation's interleaving, and what the shared matrix held before it.
  datatype Schedule = Schedule(scratch: Grid, order: seq<nat>)

  function Start(threads: nat, scratch: Grid): Threads {
    Threads(seq(threads, _ => Thread(0, 0, [])), scratch, [])
  }

  lemma StartOk(g: Grid, m: nat, n: nat, threads: nat, scratch: Grid)
    requires Shape(g, m, n) && Shape(scratch, m, n) && threads >= 1
    ensures ThreadsOk(g, m, n, Handle(m, threads), Start(threads, scratch))
  {
  }

  // An interleaving that takes every thread to its end.
  ghost predicate Complete(g: Grid, m: nat, n: nat, threads: nat, c: Schedule)
    requires Shape(g, m, n) && threads >= 1
  {
    && Shape(c.scratch, m, n)
    && Possible(g, m, n, Handle(m, threads), Start(threads, c.scratch), c.order)
    && Joined(m, Handle(m, threads), RunThreads(g, m, n, Handle(m, threads), Start(threads, c.scratch), c.order))
  }

  ghost function ThreadedFile(g: Grid, m: nat, n: nat, threads: nat, c: Schedule): seq<char>
    requires Shape(g, m, n) && threads >= 1 && Complete(g, m, n, threads, c)
  {
    RunThreads(g, m, n, Handle(m, threads), Start(threads, c.scratch), c.order).file
  }

  // One threaded generation: for any number of threads, any interleaving and any
  // former contents of the shared matrix, the joined threads leave the file that
  // sequential mode writes.
  lemma ThreadedGeneration(g: Grid, m: nat, n: nat, threads: nat, c: Schedule)
    requires Shape(g, m, n) && threads >= 1 && Complete(g, m, n, threads, c)
    ensures ThreadedFile(g, m, n, threads, c) == Encode(Step(g, m, n))
  {
    var h := Handle(m, threads);
    StartOk(g, m, n, threads, c.scratch);
    ThreadsRunOk(g, m, n, h, Start(threads, c.scratch), c.order);
    var s := RunThreads(g, m, n, h, Start(threads, c.scratch), c.order);
    forall r | 0 <= r < m ensures HasRow(g, m, n, s.file, r) {
      JoinedHasRow(g, m, n, threads, s, r);
    }
    WholeFile(g, m, n, s.file);
  }

  // ---- Threads end ---------------------------------------------------------------------------

  // Steps a thread has left at most, n + 2 for each row of its chunk.
  function ThreadLeft(n: nat, h: nat, th: Thread): int {
    if th.done <= h then Off(h - th.done, n + 2) - th.j else 0
  }

  function Left(n: nat, h: nat, all: seq<Thread>): int {
    if all == [] then 0 else Left(n, h, all[..|all| - 1]) + ThreadLeft(n, h, all[|all| - 1])
  }

  lemma {:induction false} LeftUpdate(n: nat, h: nat, all: seq<Thread>, t: nat, th: Thread)
    requires t < |all|
    ensures Left(n, h, all[t := th]) == Left(n, h, all) - ThreadLeft(n, h, all[t]) + ThreadLeft(n, h, th)
  {
    var rest := all[..|all| - 1];
    if t == |all| - 1 {
      assert all[t := th][..|all| - 1] == rest;
    } else {
      assert all[t := th][..|all| - 1] == rest[t := th];
      LeftUpdate(n, h, rest, t, th);
    }
  }

  lemma {:induction false} LeftCounts(g: Grid, m: nat, n: nat, h: nat, s: Threads, t: nat)
    requires Shape(g, m, n) && ThreadsOk(g, m, n, h, s) && t <= |s.all|
    requires InChunks(h, s)
    ensures Left(n, h, s.all[..t]) >= 0
  {
    if t > 0 {
      LeftCounts(g, m, n, h, s, t - 1);
      assert s.all[..t][..t - 1] == s.all[..t - 1];
      assert ThreadOk(g, m, n, h, s, t - 1);
    }
  }

  // Every step uses up one.
  lemma StepUsesOne(g: Grid, m: nat, n: nat, h: nat, s: Threads, t: nat)
    requires Shape(g, m, n) && ThreadsOk(g, m, n, h, s) && CanStep(m, h, s, t)
    ensures Left(n, h, ThreadStep(g, m, n, h, s, t).all) == Left(n, h, s.all) - 1
  {
    assert ThreadOk(g, m, n, h, s, t);
    LeftUpdate(n, h, s.all, t, ThreadStep(g, m, n, h, s, t).all[t]);
  }

  ghost predicate InChunks(h: nat, s: Threads) {
    forall u :: 0 <= u < |s.all| ==> s.all[u].done <= h
  }

  // No interleaving is longer, and every one can be completed.
  lemma {:induction false} OrdersAreBounded(g: Grid, m: nat, n: nat, h: nat, s: Threads, order: seq<nat>)
    requires Shape(g, m, n) && ThreadsOk(g, m, n, h, s) && InChunks(h, s) && Possible(g, m, n, h, s, order)
    ensures |order| <= Left(n, h, s.all)
    decreases |order|
  {
    if order == [] {
      LeftCounts(g, m, n, h, s, |s.all|);
      assert s.all[..|s.all|] == s.all;
    } else {
      ThreadStepOk(g, m, n, h, s, order[0]);
      StepUsesOne(g, m, n, h, s, order[0]);
      OrdersAreBounded(g, m, n, h, ThreadStep(g, m, n, h, s, order[0]), order[1..]);
    }
  }

  lemma {:induction false} CanFinish(g: Grid, m: nat, n: nat, h: nat, s: Threads) returns (order: seq<nat>)
    requires Shape(g, m, n) && ThreadsOk(g, m, n, h, s) && InChunks(h, s)
    ensures Possible(g, m, n, h, s, order) && Joined(m, h, RunThreads(g, m, n, h, s, order))
    decreases Left(n, h, s.all)
  {
    if t :| 0 <= t < |s.all| && CanStep(m, h, s, t) {
      ThreadStepOk(g, m, n, h, s, t);
      StepUsesOne(g, m, n, h, s, t);
      LeftCounts(g, m, n, h, s, |s.all|);
      assert s.all[..|s.all|] == s.all;
      var rest := CanFinish(g, m, n, h, ThreadStep(g, m, n, h, s, t));
      order := [t] + rest;
      assert order[1..] == rest;
    } else {
      order := [];
    }
  }

  lemma CompletionExists(g: Grid, m: nat, n: nat, threads: nat, scratch: Grid) returns (c: Schedule)
    requires Shape(g, m, n) && Shape(scratch, m, n) && threads >= 1
    ensures c.scratch == scratch && Complete(g, m, n, threads, c)
  {
    StartOk(g, m, n, threads, scratch);
    var order := CanFinish(g, m, n, Handle(m, threads), Start(threads, scratch));
    c := Schedule(scratch, order);
  }

  // ---- Several generations ---------------------------------------------------------------------

  // Threaded mode with one interleaving per generation; each generation after
  // the first starts from the file the previous one left. files[k] is the file
  // of generation k + 1.
  ghost predicate ThreadedRun(g: Grid, m: nat, n: nat, threads: nat, cs: seq<Schedule>, files: seq<seq<char>>)
    requires threads >= 1
  {
    && |files| == |cs|
    && forall k :: 0 <= k < |cs| ==> ThreadedStep(g, m, n, threads, cs, files, k)
  }

  ghost predicate ThreadedStep(g: Grid, m: nat, n: nat, threads: nat, cs: seq<Schedule>, files: seq<seq<char>>,
    k: nat)
    requires threads >= 1 && k < |cs| == |files|
  {
    var matrix := MatrixAt(g, m, n, files, k);
    && Shape(matrix, m, n) && Complete(matrix, m, n, threads, cs[k])
    && files[k] == ThreadedFile(matrix, m, n, threads, cs[k])
  }

  // For every number of threads, every interleaving of every generation and
  // every number of generations, the threaded file encodes the iterated step.
  lemma {:induction false} ThreadedIsIterate(g: Grid, m: nat, n: nat, threads: nat,
                                             cs: seq<Schedule>, files: seq<seq<char>>, k: nat)
    requires Shape(g, m, n) && threads >= 1 && ThreadedRun(g, m, n, threads, cs, files) && k < |cs|
    ensures files[k] == Encode(Iterate(g, m, n, k + 1))
  {
    assert ThreadedStep(g, m, n, threads, cs, files, k);
    var matrix := MatrixAt(g, m, n, files, k);
    if k > 0 {
      ThreadedIsIterate(g, m, n, threads, cs, files, k - 1);
      IterateRoundTrip(g, m, n, k);
    }
    assert matrix == Iterate(g, m, n, k);
    ThreadedGeneration(matrix, m, n, threads, cs[k]);
  }

  // The matrix generation k starts from.
  function MatrixAt(g: Grid, m: nat, n: nat, files: seq<seq<char>>, k: nat): Grid
    requires k <= |files|
  {
    if k == 0 then g else Decode(files[k - 1], m, 2 * n)
  }

  lemma IterateRoundTrip(g: Grid, m: nat, n: nat, k: nat)
    requires Shape(g, m, n)
    ensures Decode(Encode(Iterate(g, m, n, k)), m, 2 * n) == Iterate(g, m, n, k)
  {
    RoundTrip(Iterate(g, m, n, k), n);
  }

  lemma StartsFromIterate(g: Grid, m: nat, n: nat, threads: nat, cs: seq<Schedule>, files: seq<seq<char>>)
    requires Shape(g, m, n) && threads >= 1 && ThreadedRun(g, m, n, threads, cs, files)
    ensures MatrixAt(g, m, n, files, |files|) == Iterate(g, m, n, |files|)
  {
    var k := |files|;
    if k > 0 {
      ThreadedIsIterate(g, m, n, threads, cs, files, k - 1);
      IterateRoundTrip(g, m, n, k);
    }
  }

  lemma RunExtends(g: Grid, m: nat, n: nat, threads: nat, cs: seq<Schedule>, files: seq<seq<char>>, c: Schedule,
      file: seq<char>)
    requires threads >= 1 && ThreadedRun(g, m, n, threads, cs, files)
    requires var matrix := MatrixAt(g, m, n, files, |files|);
      Shape(matrix, m, n) && Complete(matrix, m, n, threads, c) && file == ThreadedFile(matrix, m, n, threads, c)
    ensures ThreadedRun(g, m, n, threads, cs + [c], files + [file])
  {
    forall k | 0 <= k < |cs + [c]| ensures ThreadedStep(g, m, n, threads, cs + [c], files + [file], k) {
      assert k < |cs| ==> ThreadedStep(g, m, n, threads, cs, files, k);
    }
  }

  // Threaded runs of any number of generations exist.
  lemma {:induction false} ThreadedRunExists(g: Grid, m: nat, n: nat, threads: nat, generations: nat)
    returns (cs: seq<Schedule>, files: seq<seq<char>>)
    requires Shape(g, m, n) && threads >= 1
    ensures |cs| == generations && ThreadedRun(g, m, n, threads, cs, files)
  {
    cs, files := [], [];
    if generations > 0 {
      cs, files := ThreadedRunExists(g, m, n, threads, generations - 1);
      StartsFromIterate(g, m, n, threads, cs, files);
      var matrix := MatrixAt(g, m, n, files, |files|);
      var c := CompletionExists(matrix, m, n, threads, g);
      var file := ThreadedFile(matrix, m, n, threads, c);
      RunExtends(g, m, n, threads, cs, files, c, file);
      cs, files := cs + [c], files + [file];
    }
  }

  // Parallel equals sequential.
  method CompareModes(g: Grid, m: nat, n: nat, threads: nat, ghost cs: seq<Schedule>, ghost files: seq<seq<char>>,
                      generations: nat) returns (file: seq<char>)
    requires Shape(g, m, n) && threads >= 1 && generations >= 1
    requires |cs| == generations && ThreadedRun(g, m, n, threads, cs, files)
    ensures file == files[generations - 1]
  {
    file := RunSequential(g, m, n, generations);
    ThreadedIsIterate(g, m, n, threads, cs, files, generations - 1);
  }
}
