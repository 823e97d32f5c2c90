/**
 * Sequence aggregation and download (`fetch_sequences`, `download_sequence`): collect the
 * distinct `sequence_id` values of a feature list, then download sequence after sequence,
 * up to a cap, logging each sequence whose download failed.
 */
module Sequences {
  import opened Wrappers
  import opened Features

  const SEQUENCE_ID_KEY: string := "sequence_id"

  predicate HasSequenceId(f: Feature)
  {
    SEQUENCE_ID_KEY in f.properties
  }

  /**
   * The set of sequence ids of `fs`; the first feature without one raises, and its index is
   * what the error names.
   */
  function SequenceIds(fs: seq<Feature>): (r: Result<set<string>, Error>)
    ensures r.Success? <==> forall i :: 0 <= i < |fs| ==> HasSequenceId(fs[i])
    ensures r.Failure? ==> r.error.MissingSequenceId? && r.error.index < |fs|
    ensures r.Failure? ==> !HasSequenceId(fs[r.error.index])
    ensures r.Failure? ==> forall j :: 0 <= j < r.error.index ==> HasSequenceId(fs[j])
    ensures r.Success? ==> forall s :: s in r.value <==>
      exists i :: 0 <= i < |fs| && HasSequenceId(fs[i]) && fs[i].properties[SEQUENCE_ID_KEY] == s
  {
    if fs == [] then Success({})
    else
      var init := fs[..|fs| - 1];
      var last := fs[|fs| - 1];
      match SequenceIds(init)
      case Failure(e) => Failure(e)
      case Success(ids) =>
        if HasSequenceId(last) then
          var r := Success(ids + {last.properties[SEQUENCE_ID_KEY]});
          assert forall i :: 0 <= i < |init| ==> init[i] == fs[i];
          r
        else Failure(MissingSequenceId(|fs| - 1))
  }

  /** The error names the first feature without a sequence id, wherever the list goes on. */
  lemma FirstMissing(fs: seq<Feature>, i: nat)
    requires i < |fs| && !HasSequenceId(fs[i])
    requires forall j :: 0 <= j < i ==> HasSequenceId(fs[j])
    ensures SequenceIds(fs) == Failure(MissingSequenceId(i))
  {
  }

  /** The first loop of `fetch_sequences`: add each feature's `sequence_id` to a set. */
  method CollectSequenceIds(fs: seq<Feature>) returns (r: Result<set<string>, Error>)
    ensures r == SequenceIds(fs)
  {
    var sequences: set<string> := {};
    for i := 0 to |fs|
      invariant SequenceIds(fs[..i]) == Success(sequences)
    {
      assert fs[..i + 1][..i] == fs[..i];
      var properties := fs[i].properties;
      if SEQUENCE_ID_KEY !in properties {
        assert forall j :: 0 <= j < i ==> fs[..i][j] == fs[j];
        FirstMissing(fs, i);
        return Failure(MissingSequenceId(i));
      }
      sequences := sequences + {properties[SEQUENCE_ID_KEY]};
    }
    assert fs[..|fs|] == fs;
    r := Success(sequences);
  }

  /** The file `{odir}/{sequence_id}/{image_id}.jpg` of one downloaded image. */
  datatype ImagePath = ImagePath(sequenceId: string, imageId: string)

  /**
   * The imagery service as the downloader sees it. `listImages` lists the image ids of a
   * sequence and creates its directory, `None` when any of that raised; `fetchImage` is
   * false when downloading one image raised.
   */
  datatype Env = Env(listImages: string -> Option<seq<string>>, fetchImage: (string, string) -> bool)

  /** The files of the images `imageIds` of one sequence, in listing order. */
  function Paths(sequenceId: string, imageIds: seq<string>): seq<ImagePath>
  {
    seq(|imageIds|, i requires 0 <= i < |imageIds| => ImagePath(sequenceId, imageIds[i]))
  }

  /** The images of `imageIds` written, in order, before the first one whose download fails. */
  function WrittenBeforeFailure(env: Env, sequenceId: string, imageIds: seq<string>): seq<ImagePath>
  {
    if imageIds == [] then []
    else if !env.fetchImage(sequenceId, imageIds[0]) then []
    else [ImagePath(sequenceId, imageIds[0])] + WrittenBeforeFailure(env, sequenceId, imageIds[1..])
  }

  /** The images one call of `download_sequence` writes. */
  function Written(env: Env, sequenceId: string): seq<ImagePath>
  {
    match env.listImages(sequenceId)
    case None => []
    case Some(imageIds) => WrittenBeforeFailure(env, sequenceId, imageIds)
  }

  /** Downloading a sequence raises nothing: the listing works and so does every image. */
  predicate Succeeds(env: Env, sequenceId: string)
  {
    match env.listImages(sequenceId)
    case None => false
    case Some(imageIds) => forall i :: 0 <= i < |imageIds| ==> env.fetchImage(sequenceId, imageIds[i])
  }

  /** The lines added to `bad-sequences.list` by downloading `ids` one after another. */
  function BadLog(env: Env, ids: seq<string>): seq<string>
  {
    if ids == [] then []
    else
      var last := ids[|ids| - 1];
      BadLog(env, ids[..|ids| - 1]) + (if Succeeds(env, last) then [] else [last])
  }

  /** The images written by downloading `ids` one after another. */
  function ImagesOf(env: Env, ids: seq<string>): seq<ImagePath>
  {
    if ids == [] then [] else ImagesOf(env, ids[..|ids| - 1]) + Written(env, ids[|ids| - 1])
  }

  /** Downloading one more sequence appends its images and, if it fails, its id. */
  lemma LogsGrowByOne(env: Env, done: seq<string>, s: string)
    ensures ImagesOf(env, done + [s]) == ImagesOf(env, done) + Written(env, s)
    ensures BadLog(env, done + [s]) == BadLog(env, done) + (if Succeeds(env, s) then [] else [s])
  {
    assert (done + [s])[..|done|] == done;
  }

  /** Concatenation regroups. */
  lemma Associative<T>(a: seq<T>, b: seq<T>, c: seq<T>)
    ensures (a + b) + c == a + (b + c)
  {
  }

  /** When every image downloads, every image is written. */
  lemma {:induction false} WrittenAll(env: Env, sequenceId: string, imageIds: seq<string>)
    requires forall i :: 0 <= i < |imageIds| ==> env.fetchImage(sequenceId, imageIds[i])
    ensures WrittenBeforeFailure(env, sequenceId, imageIds) == Paths(sequenceId, imageIds)
  {
    if imageIds != [] {
      WrittenAll(env, sequenceId, imageIds[1..]);
    }
  }

  /** When image `k` is the first to fail, exactly the images before it are written. */
  lemma {:induction false} WrittenUpTo(env: Env, sequenceId: string, imageIds: seq<string>, k: nat)
    requires k < |imageIds| && !env.fetchImage(sequenceId, imageIds[k])
    requires forall i :: 0 <= i < k ==> env.fetchImage(sequenceId, imageIds[i])
    ensures WrittenBeforeFailure(env, sequenceId, imageIds) == Paths(sequenceId, imageIds[..k])
  {
    if k > 0 {
      WrittenUpTo(env, sequenceId, imageIds[1..], k - 1);
      assert imageIds[1..][..k - 1] == imageIds[..k][1..];
    }
  }

  /** A sequence is logged as bad exactly when it was downloaded and its download failed. */
  lemma {:induction false} BadLogMembers(env: Env, ids: seq<string>, s: string)
    ensures s in BadLog(env, ids) <==> s in ids && !Succeeds(env, s)
  {
    if ids != [] {
      var init := ids[..|ids| - 1];
      BadLogMembers(env, init, s);
      assert ids == init + [ids[|ids| - 1]];
    }
  }

  function Min(a: int, b: int): int { if a <= b then a else b }

  /**
   * Every image of the listing is written exactly when every image downloads, so a sequence
   * that is not logged as bad is complete on disk.
   */
  lemma {:induction false} WrittenAllExactly(env: Env, sequenceId: string, imageIds: seq<string>)
    ensures |WrittenBeforeFailure(env, sequenceId, imageIds)| <= |imageIds|
    ensures |WrittenBeforeFailure(env, sequenceId, imageIds)| == |imageIds| <==>
      forall i :: 0 <= i < |imageIds| ==> env.fetchImage(sequenceId, imageIds[i])
  {
    if imageIds != [] {
      var rest := imageIds[1..];
      WrittenAllExactly(env, sequenceId, rest);
      assert forall i :: 0 < i < |imageIds| ==> imageIds[i] == rest[i - 1];
      if env.fetchImage(sequenceId, imageIds[0]) && forall i :: 0 <= i < |rest| ==> env.fetchImage(sequenceId, rest[i]) {
        assert forall i :: 0 <= i < |imageIds| ==> env.fetchImage(sequenceId, imageIds[i]);
      }
    }
  }

  /**
   * The elements of a set, each once, in the order a loop over the set meets them
   * (an order nothing fixes).
   */
  method Enumerate(sequences: set<string>) returns (order: seq<string>)
    ensures |order| == |sequences|
    ensures forall x :: x in sequences <==> x in order
    ensures forall i, j :: 0 <= i < j < |order| ==> order[i] != order[j]
  {
    var remaining := sequences;
    order := [];
    while remaining != {}
      invariant remaining <= sequences
      invariant forall x :: x in sequences <==> x in order || x in remaining
      invariant forall i :: 0 <= i < |order| ==> order[i] !in remaining
      invariant forall i, j :: 0 <= i < j < |order| ==> order[i] != order[j]
      invariant |order| + |remaining| == |sequences|
      decreases remaining
    {
      var s :| s in remaining;
      ghost var order0, remaining0 := order, remaining;
      remaining := remaining - {s};
      order := order + [s];
      assert |remaining| == |remaining0| - 1;
      forall x | x in sequences ensures x in order || x in remaining {
        if x in order0 {
          var k :| 0 <= k < |order0| && order0[k] == x;
          assert order[k] == x;
        } else {
          assert x == s || x in remaining;
          assert order[|order0|] == s;
        }
      }
    }
  }

  /**
   * The output directory `odir` as the downloads change it: the lines of `bad-sequences.list`,
   * the image files written, and (for the proofs) every sequence a download was started for.
   */
  class OutputDirectory {
    var badSequences: seq<string>
    var images: seq<ImagePath>
    ghost var attempts: seq<string>

    constructor ()
      ensures badSequences == [] && images == [] && attempts == []
    {
      badSequences, images, attempts := [], [], [];
    }

    /**
     * `download_sequence`: list the sequence's images and download them one by one; any
     * failure appends the sequence id to `bad-sequences.list` and returns normally.
     */
    method DownloadSequence(sequenceId: string, env: Env)
      modifies this
      ensures attempts == old(attempts) + [sequenceId]
      ensures images == old(images) + Written(env, sequenceId)
      ensures badSequences == old(badSequences) + (if Succeeds(env, sequenceId) then [] else [sequenceId])
    {
      attempts := attempts + [sequenceId];
      var listing := env.listImages(sequenceId);
      if listing.None? {
        badSequences := badSequences + [sequenceId];
        return;
      }
      var imageIds := listing.value;
      for i := 0 to |imageIds|
        invariant images == old(images) + Paths(sequenceId, imageIds[..i])
        invariant forall j :: 0 <= j < i ==> env.fetchImage(sequenceId, imageIds[j])
        invariant badSequences == old(badSequences) && attempts == old(attempts) + [sequenceId]
      {
        if !env.fetchImage(sequenceId, imageIds[i]) {
          WrittenUpTo(env, sequenceId, imageIds, i);
          badSequences := badSequences + [sequenceId];
          return;
        }
        assert Paths(sequenceId, imageIds[..i + 1]) == Paths(sequenceId, imageIds[..i]) + [ImagePath(sequenceId, imageIds[i])];
        images := images + [ImagePath(sequenceId, imageIds[i])];
      }
      assert imageIds[..|imageIds|] == imageIds;
      WrittenAll(env, sequenceId, imageIds);
    }

    /**
     * `fetch_sequences`: collect the sequence ids, then, unless `doNotDownload`, download the
     * sequences in some order, stopping once the counter `numSeq` (starting at 1, incremented
     * after every download) exceeds `maxSeqs`. As in the source, a caller who gives neither
     * flag downloads nothing.
     */
    method FetchSequences(features: seq<Feature>, env: Env, doNotDownload: bool := true, maxSeqs: Option<int> := None)
      returns (r: Result<set<string>, Error>)
      modifies this
      ensures r == SequenceIds(features)
      ensures r.Failure? ==> attempts == old(attempts) && images == old(images) && badSequences == old(badSequences)
      ensures |old(attempts)| <= |attempts| && attempts[..|old(attempts)|] == old(attempts)
      ensures var started := attempts[|old(attempts)|..];
        && (forall i :: 0 <= i < |started| ==> r.Success? && started[i] in r.value)
        && (forall i, j :: 0 <= i < j < |started| ==> started[i] != started[j])
        && images == old(images) + ImagesOf(env, started)
        && badSequences == old(badSequences) + BadLog(env, started)
      ensures r.Success? && doNotDownload ==> attempts == old(attempts)
      ensures r.Success? && !doNotDownload && maxSeqs.None? ==>
        (forall s :: s in r.value <==> s in attempts[|old(attempts)|..])
      ensures r.Success? && !doNotDownload && maxSeqs.None? ==> |attempts| - |old(attempts)| == |r.value|
      ensures r.Success? && !doNotDownload && maxSeqs.Some? && maxSeqs.value >= 1 ==>
        |attempts| - |old(attempts)| == if maxSeqs.value < |r.value| then maxSeqs.value else |r.value|
      ensures r.Success? && !doNotDownload && maxSeqs.Some? && maxSeqs.value <= 0 && |r.value| >= 1 ==>
        |attempts| - |old(attempts)| == 1
    {
      r := CollectSequenceIds(features);
      if r.Success? {
        ghost var started := DownloadEach(r.value, env, doNotDownload, maxSeqs);
      }
      assert attempts[..|old(attempts)|] == old(attempts);
    }

    /** The logs hold what they held before plus what downloading `done`, in that order, adds. */
    ghost predicate Logged(attempts0: seq<string>, images0: seq<ImagePath>, bad0: seq<string>, env: Env, done: seq<string>)
      reads this
    {
      && attempts == attempts0 + done
      && images == images0 + ImagesOf(env, done)
      && badSequences == bad0 + BadLog(env, done)
    }

    /** One more download keeps the logs in step with the list of sequences downloaded. */
    method LoggedDownload(s: string, env: Env, ghost attempts0: seq<string>, ghost images0: seq<ImagePath>,
                          ghost bad0: seq<string>, ghost done: seq<string>)
      requires Logged(attempts0, images0, bad0, env, done)
      modifies this
      ensures Logged(attempts0, images0, bad0, env, done + [s])
    {
      DownloadSequence(s, env);
      LogsGrowByOne(env, done, s);
      Associative(attempts0, done, [s]);
      Associative(images0, ImagesOf(env, done), Written(env, s));
      Associative(bad0, BadLog(env, done), if Succeeds(env, s) then [] else [s]);
    }

    /** The second loop of `fetch_sequences`, over the set of sequence ids in no fixed order. */
    method DownloadEach(sequences: set<string>, env: Env, doNotDownload: bool, maxSeqs: Option<int>)
      returns (ghost started: seq<string>)
      modifies this
      ensures attempts == old(attempts) + started
      ensures images == old(images) + ImagesOf(env, started)
      ensures badSequences == old(badSequences) + BadLog(env, started)
      ensures forall i :: 0 <= i < |started| ==> started[i] in sequences
      ensures forall i, j :: 0 <= i < j < |started| ==> started[i] != started[j]
      ensures doNotDownload ==> started == []
      ensures !doNotDownload && maxSeqs.None? ==> |started| == |sequences|
      ensures !doNotDownload && maxSeqs.None? ==> forall s :: s in sequences ==> s in started
      ensures !doNotDownload && maxSeqs.Some? ==>
        |started| == Min(|sequences|, if maxSeqs.value >= 1 then maxSeqs.value else 1)
    {
      var order := Enumerate(sequences);
      started := DownloadInOrder(order, env, doNotDownload, maxSeqs);
      assert started == order[..|started|];
      forall i | 0 <= i < |started| ensures started[i] == order[i] && order[i] in sequences {
      }
      if !doNotDownload && maxSeqs.None? {
        assert started == order;
      }
    }

    /**
     * The same loop once the set is laid out in the order it is met: download the elements
     * of `order` in turn while the counter stays within the cap.
     */
    method DownloadInOrder(order: seq<string>, env: Env, doNotDownload: bool, maxSeqs: Option<int>)
      returns (ghost started: seq<string>)
      modifies this
      ensures Logged(old(attempts), old(images), old(badSequences), env, started)
      ensures |started| <= |order|
      ensures started == if doNotDownload then [] else order[..|started|]
      ensures !doNotDownload && maxSeqs.None? ==> |started| == |order|
      ensures !doNotDownload && maxSeqs.Some? ==>
        |started| == Min(|order|, if maxSeqs.value >= 1 then maxSeqs.value else 1)
    {
      ghost var attempts0, images0, bad0 := attempts, images, badSequences;
      // the number of downloads after which the counter exceeds the cap
      ghost var cap := if maxSeqs.Some? && maxSeqs.value >= 1 then maxSeqs.value else 1;
      started := [];
      var numSeq := 1;
      var i := 0;
      while i < |order|
        invariant 0 <= i <= |order|
        invariant Logged(attempts0, images0, bad0, env, started)
        invariant started == if doNotDownload then [] else order[..i]
        invariant numSeq == |started| + 1
        invariant !doNotDownload && maxSeqs.Some? ==> i < cap
      {
        var s := order[i];
        if !doNotDownload {
          LoggedDownload(s, env, attempts0, images0, bad0, started);
          assert order[..i + 1] == order[..i] + [s];
          started := started + [s];
          numSeq := numSeq + 1;
          if maxSeqs.Some? && numSeq > maxSeqs.value {
            break;
          }
        }
        i := i + 1;
      }
    }
  }
}
