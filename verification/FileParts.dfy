/** The part count of an upload, and the cut of a file that it counts. */
module FileParts {
  import opened CeilingDivision

  /** The part count as parseRequest computes it, on wrapping 64-bit arithmetic. */
  function UploadParts(size: nat, partsize: nat): (n: int)
    requires partsize > 0
    ensures n >= 1
  {
    var q := DivCeil(size, partsize).value;
    if q > 1 then q else 1
  }

  /** Cut a file into consecutive pieces of at most partsize bytes; an empty file is one empty piece. */
  function Cut<T>(file: seq<T>, partsize: nat): (pieces: seq<seq<T>>)
    requires partsize > 0
    ensures pieces != []
  {
    if |file| <= partsize then [file] else [file[..partsize]] + Cut(file[partsize..], partsize)
  }

  function Concat<T>(pieces: seq<seq<T>>): seq<T> {
    if pieces == [] then [] else pieces[0] + Concat(pieces[1..])
  }

  /** No byte is lost, duplicated or reordered by the cut. */
  lemma {:induction false} CutConcat<T>(file: seq<T>, partsize: nat)
    requires partsize > 0
    ensures Concat(Cut(file, partsize)) == file
  {
    if |file| > partsize {
      var rest := Cut(file[partsize..], partsize);
      CutConcat(file[partsize..], partsize);
      assert ([file[..partsize]] + rest)[1..] == rest;
      assert file[..partsize] + file[partsize..] == file;
    } else {
      assert [file][1..] == [];
      assert file + [] == file;
    }
  }

  /** Every piece but the last is full, and the last is not empty unless the file is. */
  lemma {:induction false} CutPieces<T>(file: seq<T>, partsize: nat)
    requires partsize > 0
    ensures forall i :: 0 <= i < |Cut(file, partsize)| - 1 ==> |Cut(file, partsize)[i]| == partsize
    ensures 0 <= |Cut(file, partsize)[|Cut(file, partsize)| - 1]| <= partsize
    ensures file != [] ==> Cut(file, partsize)[|Cut(file, partsize)| - 1] != []
  {
    if |file| > partsize {
      CutPieces(file[partsize..], partsize);
    }
  }

  /** The cut has as many pieces as partsize-multiples are needed to reach the size, and at least one. */
  lemma {:induction false} CutLength<T>(file: seq<T>, partsize: nat)
    requires partsize > 0
    ensures |Cut(file, partsize)| == if file == [] then 1 else Ceil(|file|, partsize)
  {
    var n := |Cut(file, partsize)|;
    if |file| > partsize {
      var rest := file[partsize..];
      CutLength(rest, partsize);
      var q := Ceil(|rest|, partsize);
      assert (q + 1) * partsize == q * partsize + partsize;
      CeilLeast(|file|, partsize, q + 1);
      assert (q - 1) * partsize + partsize == q * partsize;
      CeilLeast(|file|, partsize, q);
    } else if file != [] {
      CeilLeast(|file|, partsize, 1);
      CeilLeast(|file|, partsize, 0);
    }
  }

  /** While the sum in DivCeil fits 64 bits, UploadParts is the number of pieces of the cut. */
  lemma UploadPartsCountsPieces<T>(file: seq<T>, partsize: nat)
    requires 0 < partsize <= MAX_INT64 && |file| + partsize - 1 <= MAX_INT64
    ensures UploadParts(|file|, partsize) == |Cut(file, partsize)|
  {
    DivCeilExact(|file|, partsize);
    CutLength(file, partsize);
    CeilLeast(|file|, partsize, 0);
  }

  /** Equivalently it is the least k >= 1 whose k parts hold the whole file. */
  lemma UploadPartsLeast(size: nat, partsize: nat, k: nat)
    requires 0 < partsize <= MAX_INT64 && size + partsize - 1 <= MAX_INT64 && k >= 1
    ensures UploadParts(size, partsize) <= k <==> size <= k * partsize
  {
    DivCeilExact(size, partsize);
    CeilLeast(size, partsize, k);
    Scale(1, k, partsize);
  }

  /** README's example: 25 MiB in 10 MiB parts is three parts. */
  lemma ReadmeThreeParts(mib: nat)
    requires mib == 1048576
    ensures UploadParts(25 * mib, 10 * mib) == 3
  {
    DivCeilExact(25 * mib, 10 * mib);
    CeilLeast(25 * mib, 10 * mib, 3);
    CeilLeast(25 * mib, 10 * mib, 2);
  }

  /** The code counts the parts rightly exactly when its sum fits in 64 bits or one part
      holds the file; beyond that it takes a single part. */
  lemma {:induction false} UploadPartsExactly(size: nat, partsize: nat)
    requires size <= MAX_INT64 && 0 < partsize <= MAX_INT64
    ensures UploadParts(size, partsize) == (if size == 0 then 1 else Ceil(size, partsize))
            <==> size + partsize - 1 <= MAX_INT64 || size <= partsize
    ensures size + partsize - 1 > MAX_INT64 ==> UploadParts(size, partsize) == 1
  {
    CeilLeast(size, partsize, 0);
    CeilLeast(size, partsize, 1);
    DivCeilExact(size, partsize);
    if size + partsize - 1 > MAX_INT64 {
      QuotientShrinks(TWO_TO_64 - (size + partsize - 1), partsize);
    }
    hide Ceil;
  }
}
