# indexander, verified

A model in Dafny of the search engine's hard parts, with proofs. Loops and
objects of the source are methods and classes here, each proved against a
function that says what it computes; the lemmas are about those functions.

- **Segment files** (`Codec`, `Postings`, `Builder`, `TokenCount`,
  `SegmentFormat`, `Segment`, `SegmentWriter`, `SegmentRoundTrip`, `Damage`,
  `Health`): the builder, the bytes it writes, the reader. What is written is
  read back, term by term and document by document, and binary search finds what
  is there and nothing else.
- **Merging** (`Merge`, `MergeOrder`): rebuilding from finished segments gives
  the very bytes of a single pass.
- **Skipping** (`Cursor`): a cursor that jumps over blocks is always where full
  decoding would be.
- **Ranked retrieval** (`Scoring`, `Relevance`, `TopK`, `Retrieval`, `Pruning`,
  `MaxScore`, `Search`, `Answer`, `Hits`): what scores more, and why; the
  MaxScore walk with block skipping ends with the heap of the walk that prunes
  nothing, and the bounds in the file bound the scores it prunes by.
- **Sharded search** (`KeepBest`, `WholeCorpus`, `Sharding`, `Coordinator`):
  two rounds over any split give the answer of one index.
- **PageRank** (`PageRank`, `LinkGraph`, `PowerIteration`, `ShardRank`,
  `DistributedRank`, `RankProtocol`): mass, contraction and convergence, and
  the same ranks from one process, from shards in one process and from shards
  that exchange messages.
- **Merge policy and merger** (`MergePolicy`, `MergeCost`, `Directory`,
  `Merger`, `Settling`, `FileSize`, `Samples`, `BrokenMerge`, `Example`): what
  merging costs over any run, what a directory looks like in every state a
  crash can leave, and exactly which indexes a merge breaks.
- **Replication** (`Replication`, `BrokenSync`): a replica's directory opens at
  every step, whatever its source answers, as long as no name means one thing
  in the manifest it holds and another in the one it is sent.
- **Crawling** (`Spool`, `Frontier`, `Crawl`, `Budget`, `Resume`): every
  interleaving of a first run, a crash anywhere, one resume; the limits in every
  state of it; and what a second resume loses.
- **Small algorithms** (`Ndcg`, `Robots`, `JumpHash`).

`Wrappers`, `Sums`, `Ordered` and `Sorting` are shared groundwork.

How the model stands to the program:

- Scores, ranks and discounts are real numbers. Inside a file a number is its
  bit pattern; `SegmentFormat.Arithmetic` says which number a pattern stands
  for. Over the reals the builder's average length and the segment's coincide,
  and a segment's total length is recovered exactly from its average.
- Of `ln` it is assumed that it grows and is zero at one, of `ln_1p` that it is
  `ln` of one more, and of the gain discount that it is positive and falls;
  `length_norm` and `saturation` are the source's formulas.
- Pruning with a segment's own statistics assumes that storing a bound as a
  bit pattern does not lower it (`Search.BoundsSurviveStorage`), for the
  postings of that segment.
- A bounded heap is its contents, best first. A library sort is the sorted
  list, a map iterated in key order is its keys in that order, and a map
  iterated in hash order is any order.
- A path of a robots rule is a sequence of bytes.
- A document is already split into terms. `SKIP_INTERVAL` is 128.
- The manifest's text is an encoding that gives back every manifest whose names
  are single words; names made from digests are, and so are all names read.
- `Directory.Folder` remembers the directory after every operation; a crash
  leaves one of those states. A request and its answer are one step, and a
  broadcast is an ordered list of them.

Where the code does not do what its documentation or its caller would expect,
the model follows the code and says exactly when it does:

- A merge can delete a file its own manifest names. It does exactly when an
  entry outside the plan, or the result, goes by the name of an entry inside it
  (`Merger.Merger.SafeByName`). As long as no other bytes already stand under
  the result's name, the latter means that one segment of the plan goes by its
  digest and all the others hold no document, so that the result is that
  segment again (`Merger.Merger.SafeExactly`). `BrokenMerge` has an index of each kind: the
  same contents listed twice, a page folded with an empty segment, and a page
  whose tier is filled up with empty segments, which breaks under the default
  policy too. Where every name is made from a digest and no two entries share
  one, only a plan of two can do it (`Merger.Merger.SafeUnlessEmptyPair`);
  `MergePolicy.PairIsExact` says which policies make one, and
  `MergePolicy.DefaultFoldsMore` that the default does not.
- A sync replaces a segment the replica's manifest still names when the source
  uses that name for something else; until the new manifest is there the
  directory opens as nothing. `Replication.SyncFrom` says this happens exactly
  when the two manifests, or the new one with itself, give a name two digests;
  `BrokenSync.Break` is such a pair.
- A pattern ending in `$` can cover a path and not match it, because each piece
  is taken at its first place: exactly when it covers a proper prefix too and
  does not end in a star (`Robots.AnchoredIsExact`, `Robots.AnchoredCanMiss`).
- A shard whose segments disagree about parameters reports the defaults instead
  of failing, and so does an empty shard. So one setting throughout is refused
  exactly when it is not the defaults and some shards, not all, are empty
  (`Coordinator.UniformShardsAgree`, `Coordinator.EmptyShardIsRefused`), and
  several settings are accepted exactly when some shard disagrees within itself
  and every other one reports the defaults
  (`Coordinator.AgreedShardsAreUniform`, `Coordinator.MixedShardIsAccepted`).
- A run that names a document twice among its first `k` can score above one,
  and only such a run can: `Ndcg.NoRepeatsIsExact`, `Ndcg.RepeatsCanExceed`.
- A second resume does not give back what was fetched. A resumed run appends to
  the spool it finds but counts its pages from zero, so its frontier speaks of
  the wrong records. Nothing is lost by a second resume exactly when the first
  had nothing to resume from (`Resume.WholeFileIsExact`, and
  `Resume.ResumedTwiceIsExact` where the file held more than was counted);
  resuming twice over a finished crawl leaves an empty index
  (`Resume.FinishedIsForgotten`), and whatever stands behind a record torn by a
  crash cannot be read at all (`Resume.TornIsExact`).
- A page in flight when the frontier is saved is counted against the page budget
  and queued again, so it is counted twice (`Resume.InFlightIsCountedTwice`).
- Words of two links can match as one phrase, since positions run on from one
  anchor to the next: exactly when two anchors have a word in them
  (`TokenCount.StraddlesExactly`).
- Merging keeps documents in the order they were added when the segments of the
  plan stand next to one another, and otherwise need not
  (`MergeOrder.ContiguousKeepsOrder`, `MergeOrder.SkippingChangesOrder`).

## Model

| member | source | states |
|---|---|---|
| Codec.WriteVarint | crates/index/src/codec.rs:22-29 | appends the seven-bit groups of a 64-bit value, low group first |
| Codec.ReadVarint | crates/index/src/codec.rs:32-50 | reads a varint or fails at the end of the buffer or past ten groups, on any bytes; groups above bit 63 are lost |
| Codec.VarintIs | crates/index/src/codec.rs:22-29 | the groups of a varint are worth the number it was made from, only the last byte has its high bit clear, and there is no group to spare |
| Codec.HighByteLast | crates/index/src/builder.rs:483-498 | in a number of fixed width each further byte counts 256 times the one before it |
| Codec.VarintRoundTrip | crates/index/src/codec.rs:22-50 | every u64 comes back from its varint wherever it stands and whatever follows, with the cursor just past it |
| Codec.WriteDeltas | crates/index/src/codec.rs:53-60 | appends the gaps between consecutive positions |
| Codec.ReadDeltas | crates/index/src/codec.rs:63-79 | reads a run of gaps back into absolute values, or fails where a value leaves 32 bits |
| Codec.DeltasRoundTrip | crates/index/src/codec.rs:53-79 | ascending positions come back exactly and reading stops where the run ends |
| Postings.ReadPosting | crates/index/src/segment.rs:904-947 | one posting decoded from any bytes, with every malformed case an error |
| Postings.DecodePostings | crates/index/src/segment.rs:592-653 | a whole list decoded, each block restarting from an absolute id |
| Damage.SkippingAgrees | crates/index/src/segment.rs:904-947 | on any bytes that decode with positions, each field has as many as it counts, and skipping them by their length gives the same documents and counts and ends at the same place |
| Postings.BodyRoundTrip | crates/index/src/segment.rs:592-653 | full decoding gives back every document, field and position of a written list, in order |
| Postings.ReadLayout | crates/index/src/segment.rs:536-566 | a term's header read from any bytes, block offsets made absolute and checked |
| Postings.LayoutRoundTrip | crates/index/src/builder.rs:437-446 | the skip index written in front of a body is the one a reader finds over it |
| Cursor.PostingsCursor.ReadHere | crates/index/src/segment.rs:904-947 | reading where a posting was written, with the base its writer used, puts the cursor on that posting |
| Cursor.PostingsCursor.Advance | crates/index/src/segment.rs:857-868 | moves exactly one posting on, decoding at most one |
| Cursor.PostingsCursor.SkipBlock | crates/index/src/segment.rs:799-814 | lands on the first posting of the next block, or runs out after the last, decoding at most one posting |
| Cursor.PostingsCursor.Seek | crates/index/src/segment.rs:874-901 | lands on the first posting at or after the target, never moves back, decodes at most one skip interval and one posting more |
| Cursor.PostingsCursor.Candidate | crates/index/src/segment.rs:879-886 | the block found by partition point is the only one that can hold the target |
| Cursor.PostingsCursor.Doc | crates/index/src/segment.rs:824-830 | the cursor's document is the one full decoding has at its position |
| Scoring.LengthNorm | crates/index/src/scoring.rs:67-69 | the length discount is never negative when 0 <= b <= 1 |
| Scoring.Saturation | crates/index/src/scoring.rs:73-78 | a term that occurs contributes more than zero |
| Scoring.Authority | crates/index/src/scoring.rs:83-89 | the multiplier is never below one |
| Scoring.Idf | crates/index/src/scoring.rs:95-101 | positive whenever no more documents hold the term than there are |
| Scoring.SaturationMonotone | crates/index/src/scoring.rs:73-78 | more occurrences never score less, longer documents never score more, and no count passes k1 + 1 |
| Scoring.IdfFalls | crates/index/src/scoring.rs:95-101 | a rarer term weighs more, for every two frequencies up to the number of documents |
| Scoring.LengthNormGrows | crates/index/src/scoring.rs:67-69 | a longer document is discounted more unless b is zero, and one of average length not at all |
| Scoring.SaturationStrict | crates/index/src/scoring.rs:73-78 | with k1 above zero, more occurrences score strictly more and a longer document strictly less |
| Scoring.SaturationAtAverage | crates/index/src/scoring.rs:73-78 | one occurrence in a document of average length counts one |
| Scoring.AuthorityGrows | crates/index/src/scoring.rs:83-89 | a higher rank multiplies by more unless its weight is zero; no rank multiplies by one |
| Relevance.FieldsWeigh | crates/core/src/lib.rs:95-102 | a title hit weighs more than one in an anchor, and that more than one in the body |
| Relevance.BetterScoresMore | crates/index/src/search.rs:635-647 | for any query, a document no worse in any respect scores no less, and one that alone holds a term, holds more of it, is shorter or ranks higher scores strictly more where that counts |
| Relevance.RarerScoresMore | crates/index/src/scoring.rs:95-101 | of two documents alike but for the one query term each holds, the one with the rarer term scores more |
| Relevance.FrequencyCounts | crates/index/src/search.rs:49-55 | a term's frequency is the number of documents in which it weighs anything |
| Relevance.AverageIsShared | crates/index/src/builder.rs:319-323 | the average length times the number of documents is all lengths together, each once |
| TopK.PushHopeless | crates/index/src/search.rs:84-98 | a later document scoring no more than the k-th best leaves the heap as it was: pruning with <= is exact |
| TopK.PushThreshold | crates/index/src/search.rs:439-445 | the threshold never falls |
| Pruning.BestIsTopK | crates/index/src/search.rs:598-666 | the heap of the unpruned walk holds exactly the top candidates by score, then by smaller id, and any candidate left out ranks behind all of them |
| Pruning.SkipIsSafe | crates/index/src/search.rs:507-526 | a block whose bound and the other terms' ceilings cannot beat the threshold holds only documents that would not have entered the heap |
| Pruning.PruneIsSafe | crates/index/src/search.rs:553-567 | a document whose optimistic score cannot beat the threshold would not have entered the heap, even with terms missing because their block was skipped |
| Pruning.PushIsExact | crates/index/src/search.rs:574-586 | what is pushed gives the same heap as the full score, though a skipped block may have left terms out of the sum |
| Pruning.MoveOn | crates/index/src/search.rs:471-478 | documents no essential term proposes cannot enter the heap |
| MaxScore.Scan.Run | crates/index/src/search.rs:462-588 | the walk ends, whatever was pruned or skipped, with exactly the heap of the unpruned walk over every document |
| MaxScore.Scan.RunExhaustive | crates/index/src/search.rs:598-666 | the walk that prunes nothing ends with that same heap |
| MaxScore.Scan.SkipHopelessBlock | crates/index/src/search.rs:507-526 | moves only the cursor found on the document, past documents that cannot matter; past its last block the cursor runs out and the walk still goes on |
| MaxScore.Scan.Consider | crates/index/src/search.rs:529-588 | one document is excluded, pruned or scored, and the heap afterwards is the reference heap one document further |
| MaxScore.Scan.SplitGrows | crates/index/src/search.rs:449-460 | a higher threshold never makes a term essential again |
| Search.StoredBoundsBound | crates/index/src/builder.rs:66-81 | with the segment's own statistics every posting's saturation times authority is within its block's stored bound |
| Search.ScorerMeetsBound | crates/index/src/builder.rs:347-371 | what the scorer computes from a decoded posting is the number the builder computed when it wrote the bound |
| Search.WeightsAgree | crates/index/src/segment.rs:849-854 | the weighted frequency read back from counts is the one counted from positions |
| Search.CandidateIsMatch | crates/index/src/search.rs:598-666 | the walk's candidates are exactly the documents holding a query term and no excluded one |
| Search.FullScoreIsScore | crates/index/src/search.rs:635-647 | the walk's score is the sum over the query's terms of idf times saturation, times authority |
| Search.BestIsTop | crates/index/src/search.rs:598-666 | the reference heap said of postings is the one said of documents |
| Answer.OpenCursor | crates/index/src/segment.rs:569-590 | a cursor on a written term stands on its first posting; on an unknown term it is empty; damage is an error |
| Answer.OpenScan | crates/index/src/search.rs:354-435 | every term with its idf and ceiling, running totals by ceiling and exclusion cursors, wired to the query it answers; none when no term occurs |
| Answer.ByCeilingIsOrder | crates/index/src/search.rs:389-397 | sorting by ceiling keeps every term once |
| Answer.SearchSegment | crates/index/src/search.rs:141-200 | a phrase-free query returns the top matching documents with uris and scores, best first, ties on the uri, for every limit and with local or supplied statistics |
| Answer.Finish | crates/index/src/search.rs:669-695 | the heap becomes hits in order, each with its document's uri |
| Hits.SortHitsSorts | crates/index/src/search.rs:698-705 | sorting keeps the same hits, a higher score before a lower one and, at equal scores, the smaller uri first |
| Builder.SegmentBuilder.Add | crates/index/src/builder.rs:138-179 | a document gets the next id and every token is recorded at its position, anchors numbered on from one another |
| Builder.AddRecords | crates/index/src/builder.rs:138-179 | adding a document records each of its terms in each field at exactly the positions where it occurs, and disturbs no other document |
| TokenCount.AddedDocument | crates/index/src/builder.rs:138-179 | the documents before stay as they were, and the new one is stored with its uri, no rank and as its length all positions recorded for it, over all terms and fields |
| TokenCount.BuildAllAgrees | crates/index/src/builder.rs:138-179 | in every index built in one pass each stored length is the number of positions recorded for that document |
| TokenCount.AbsorbAgrees | crates/index/src/builder.rs:281-299 | absorbing keeps it so |
| TokenCount.PositionsAre | crates/index/src/builder.rs:163-171 | a term's positions in a field are exactly those at which it stands |
| TokenCount.AnchorAt | crates/index/src/builder.rs:150-156 | a word of an anchor is numbered after all the words of the anchors before it |
| TokenCount.StraddlesExactly | crates/index/src/builder.rs:150-156 | words of two links stand at consecutive positions exactly when at least two anchors have a word in them |
| TokenCount.StraddleIsRecorded | crates/index/src/builder.rs:150-156 | and then the index has the one's last word just before the other's first |
| Builder.SegmentBuilder.SetRank | crates/index/src/builder.rs:183-187 | sets one document's rank; an id never given out changes nothing |
| Builder.SegmentBuilder.Absorb | crates/index/src/builder.rs:281-299 | as if the other builder's documents had been added after these |
| Builder.AbsorbIdentity | crates/index/src/builder.rs:281-299 | the empty builder is the identity on both sides |
| Builder.AbsorbAssociative | crates/index/src/builder.rs:281-299 | which parts are absorbed first does not matter |
| Builder.AddAbsorbed | crates/index/src/builder.rs:281-299 | adding to the whole is adding to the last part |
| Builder.BuildConcat | crates/index/src/builder.rs:281-299 | two document lists built apart and absorbed are their concatenation built in one pass |
| Builder.MergeTree | crates/cli/src/main.rs:1017-1047 | pairwise rounds give the left-to-right absorption of all parts |
| Builder.ParallelBuildIsSerial | crates/cli/src/main.rs:985-1004 | however a corpus is cut into contiguous chunks, building apart and absorbing is one pass |
| SegmentWriter.Encode | crates/index/src/builder.rs:309-501 | the loops write exactly the seven sections of the file |
| SegmentWriter.WriteTerm | crates/index/src/builder.rs:334-448 | a term's header and body, each block's bound the largest of its postings' |
| Segment.Open | crates/index/src/segment.rs:230-334 | every check of the footer, in order, on any bytes |
| Damage.OpensExactly | crates/index/src/segment.rs:230-334 | any bytes open exactly when they end in the footer a builder writes for some ten numbers and usable parameters, with the sections in order and every fixed-width table before it |
| Damage.FramedOpens | crates/index/src/segment.rs:230-334 | and then as what that footer says: places, counts, digest, parameters, and the average that makes the total |
| Damage.VerifiesExactly | crates/index/src/segment.rs:368-371 | such a file verifies exactly when the footer's digest is that of everything before it |
| Segment.FindTerm | crates/index/src/segment.rs:502-515 | binary search over dictionary entries, errors included |
| Segment.ReadPostings | crates/index/src/segment.rs:592-653 | a term's postings, or none for an unknown term, errors included |
| SegmentRoundTrip.OpenRoundTrip | crates/index/src/segment.rs:230-334 | a written file opens exactly when its parameters are usable, and as what was written |
| SegmentRoundTrip.PostingsRoundTrip | crates/index/src/segment.rs:592-653 | every term's documents, fields and positions come back; a term that was not written has none |
| SegmentRoundTrip.PresentIsFound | crates/index/src/segment.rs:502-515 | binary search finds every term of the dictionary |
| SegmentRoundTrip.AbsentIsNotFound | crates/index/src/segment.rs:502-515 | binary search finds no absent term |
| SegmentRoundTrip.EntryRoundTrip | crates/index/src/segment.rs:464-482 | every dictionary entry comes back: term, postings offset, frequency |
| SegmentRoundTrip.DocRoundTrip | crates/index/src/segment.rs:435-460 | every document's uri, length and rank come back, and there are no others |
| SegmentRoundTrip.DigestVerifies | crates/index/src/segment.rs:368-371 | a written file passes its own digest |
| SegmentFormat.PresentRefills | crates/index/src/builder.rs:373-399 | writing only the fields present loses nothing |
| SegmentFormat.BlockMaxIsOne | crates/index/src/builder.rs:347-371 | a block's bound is no more than that of one of its own postings, unless all of them are worth nothing |
| SegmentFormat.LexIs | crates/index/src/segment.rs:502-515 | terms are ordered by their first different byte, or by length where there is none |
| Health.AddIsHealthy | crates/index/src/builder.rs:138-179 | adding keeps what encoding needs: ids below the count, nothing recorded nowhere, positions ascending |
| Health.RankIsHealthy | crates/index/src/builder.rs:183-187 | setting ranks keeps it too |
| Health.AbsorbIsHealthy | crates/index/src/builder.rs:281-299 | absorbing keeps it too |
| Merge.Rebuild | crates/index/src/builder.rs:214-263 | rebuilding from any segments, in order, with every failure and the refusal of differing parameters |
| Merge.SegmentIsAbsorbed | crates/index/src/builder.rs:232-261 | taking in what a builder wrote is absorbing the builder |
| Merge.MergeIsAbsorbAll | crates/index/src/builder.rs:214-263 | segments with the same parameters merge into everything absorbed in order, ranks included; others are refused |
| Merge.MergeIsByteExact | crates/index/src/builder.rs:195-263 | the merged segment has the very bytes of one pass over all the documents in order |
| MergeOrder.ContiguousKeepsOrder | crates/index/src/merger.rs:99-112 | merging segments that stand next to one another leaves the index as a whole as it was: documents in order, ids, postings |
| MergeOrder.SkippingChangesOrder | crates/index/src/merger.rs:99-112 | merging the first and the last of three pages puts the last before the second |
| MergeOrder.ManifestCounts | crates/index/src/manifest.rs:50-54 | the counts in a manifest add up to the documents of the index |
| KeepBest.KeepBoth | crates/index/src/index.rs:132-143 | the best of two lists is the best of their bests |
| KeepBest.KeepConcat | crates/cluster/src/coordinator.rs:254-258 | however many parts, the global top is inside the local tops |
| WholeCorpus.FrequencyAbsorbed | crates/index/src/search.rs:49-55 | document frequencies of parts add up to the whole's |
| WholeCorpus.SameScore | crates/index/src/search.rs:141-160 | with shared statistics a document matches and scores the same in its part as in the whole |
| WholeCorpus.LocalIsGlobal | crates/index/src/search.rs:153-154 | a segment's own counts are corpus statistics when it is the corpus |
| WholeCorpus.TopKeepsBest | crates/index/src/search.rs:580-587 | what a segment returns has the best scores there are in it |
| Sharding.SearchSegments | crates/cluster/src/shard.rs:297-330 | a shard's answer is the merged, sorted and cut answers of its segments |
| Sharding.FoundScores | crates/index/src/index.rs:121-144 | splitting a corpus into segments costs no score of the best limit |
| Sharding.ShardingKeepsTheAnswer | crates/cluster/src/coordinator.rs:232-281 | however a corpus is split into segments and shards, two rounds return the score sequence of one segment holding everything, and the same uris when scores are distinct |
| Coordinator.ShardStats | crates/cluster/src/shard.rs:261-289 | a shard reports its documents, tokens and frequencies, and the defaults as parameters when its segments disagree |
| Coordinator.TermStatistics | crates/cluster/src/coordinator.rs:163-229 | over shards written by builders, succeeds exactly when all reported parameters agree, with the statistics of the whole corpus |
| Coordinator.AddStatistics | crates/cluster/src/coordinator.rs:177-223 | whatever the shards answer, the totals of all of them, or a refusal exactly when some answer is not statistics, names other parameters or has too few or too many frequencies |
| Coordinator.UniformShardsAgree | crates/cluster/src/coordinator.rs:187-206 | segments with one set of parameters are accepted exactly when these are the defaults, or no shard is empty, or all are |
| Coordinator.AgreedShardsAreUniform | crates/cluster/src/coordinator.rs:187-206 | what is accepted has one set of parameters exactly when no shard's own segments disagree |
| Coordinator.EmptyShardIsRefused | crates/cluster/src/shard.rs:282-285 | one page written without the default parameters, beside an empty shard, is refused though there is nothing to disagree |
| Coordinator.MixedShardIsAccepted | crates/cluster/src/shard.rs:282-285 | a shard holding two sets of parameters is accepted beside one with the defaults |
| Coordinator.CoordinatedSearch | crates/cluster/src/coordinator.rs:232-281 | nothing for an empty query or limit, an error exactly when reported parameters differ, otherwise the two-round answer; over segments with one set of parameters, the score sequence of one segment holding everything, and its uris when scores are distinct |
| Coordinator.MergeHits | crates/cluster/src/coordinator.rs:255-280 | whatever the shards answer, all their hits sorted and cut, or a refusal exactly when some answer is not hits |
| Coordinator.IndexStatistics | crates/index/src/index.rs:74-89 | an index's statistics are those of its segments together |
| Coordinator.IndexSearch | crates/index/src/index.rs:121-144 | refuses differing parameters; one segment scores with its own counts, several with their sums |
| LinkGraph.GraphBuilder.Node | crates/rank/src/graph.rs:46-54 | a page gets one number, the next free one at first sight |
| LinkGraph.GraphBuilder.Link | crates/rank/src/graph.rs:60-65 | records a link between the two pages' numbers; a link to itself is dropped |
| LinkGraph.GraphBuilder.Build | crates/rank/src/graph.rs:82-104 | each row holds exactly the targets of a page's links, each once |
| LinkGraph.Offsets | crates/rank/src/graph.rs:86-93 | offset i is the number of edges of nodes below i |
| PageRank.StepKeepsMass | crates/rank/src/pagerank.rs:128-147 | a step from any vector has total 1 - d + d times the old total, sinks or no sinks |
| PageRank.FlowIsConserved | crates/rank/src/pagerank.rs:138-147 | what pages receive along links is what linking pages send |
| PageRank.IterateIsDistribution | crates/rank/src/pagerank.rs:123-155 | every iterate is nonnegative and sums to one |
| PageRank.StepContracts | crates/rank/src/pagerank.rs:128-153 | a step brings any two vectors closer by the damping factor |
| PageRank.MovementShrinks | crates/rank/src/pagerank.rs:149-153 | the residual of iteration k is at most 2 * damping^k |
| PageRank.DefaultsConverge | crates/rank/src/pagerank.rs:39-46 | with the default options every run converges within 90 of its 100 iterations |
| PageRank.StopIsFirst | crates/rank/src/pagerank.rs:123-155 | a run ends at the first iteration that moves less than the tolerance, or at the last there may be |
| PowerIteration.Pagerank | crates/rank/src/pagerank.rs:95-168 | the loops over compressed rows compute the iterates, the stopping iteration and its residual |
| PowerIteration.DegreeIs | crates/rank/src/pagerank.rs:114-120 | a row's length is the number of pages linked to |
| ShardRank.ShardGraph.Own | crates/rank/src/distributed.rs:56-65 | a page is owned once |
| ShardRank.ShardGraph.Link | crates/rank/src/distributed.rs:71-79 | an owned page links to a target once, never to itself |
| ShardRank.ShardRanker.DanglingMass | crates/rank/src/distributed.rs:146-153 | what the shard's pages without links hold |
| ShardRank.ShardRanker.Emit | crates/rank/src/distributed.rs:159-181 | own pages receive the flow from own pages; every other page's flow is in the bundle of the shard its route names |
| ShardRank.ShardRanker.Absorb | crates/rank/src/distributed.rs:184-193 | each owned page receives what the bundle carries for it; pages nobody here owns receive nothing |
| ShardRank.ShardRanker.Apply | crates/rank/src/distributed.rs:198-217 | each rank becomes base plus what came in, and the movement is their total difference |
| DistributedRank.ShardsAddUp | crates/rank/src/distributed.rs:255-256 | a sum over the web is the sum of its shards' sums |
| DistributedRank.AllGot | crates/rank/src/distributed.rs:258-272 | once all mail is delivered every page has what one process would have added up |
| DistributedRank.Iteration | crates/rank/src/distributed.rs:253-277 | one iteration over all shards is one step of the whole, with the whole's residual |
| DistributedRank.Run | crates/rank/src/distributed.rs:243-284 | ends at the same iteration as one process with every page's rank the same |
| RankProtocol.RankShard.Handle | crates/cluster/src/ranking.rs:52-145 | one request answered: initialised once, refused before and refused again; otherwise the ranker's own step |
| RankProtocol.SortMail | crates/cluster/src/ranking.rs:292-297 | every share goes to the shard its page's route names |
| RankProtocol.Coordinate | crates/cluster/src/ranking.rs:247-341 | refused exactly when a shard was initialised before, and then the shards asked before it have given up their graphs and the others are as they were; otherwise every page has the rank one process computes, at the same iteration, and converged says whether the movement got small; either way a second run is refused |
| MergePolicy.FindTier | crates/index/src/manifest.rs:186-197 | the tier of a size by the saturating loop |
| MergePolicy.TierIsRight | crates/index/src/manifest.rs:186-197 | tier t holds exactly the sizes from f^t up to f^(t+1), the smallest from zero, for every size below the 64-bit maximum, and a size has one tier |
| MergePolicy.FindMerge | crates/index/src/manifest.rs:206-242 | the first plan of the smallest full tier that can take two segments |
| MergePolicy.NextMergeIsSensible | crates/index/src/manifest.rs:206-242 | a plan names at least two different segments of one tier, in order, that fit under the ceiling together unless the ceiling is the 64-bit maximum, where sums saturate |
| MergePolicy.AtRestTiersAreShort | crates/index/src/manifest.rs:206-242 | with nothing left to merge, every tier t with 2 * f^(t+1) within the ceiling holds fewer than max(segments_per_tier, 2) segments |
| MergePolicy.PairIsExact | crates/index/src/manifest.rs:206-242 | some index with no smaller segment makes the policy fold one of a given size with one other, exactly when two of that size fit the ceiling and tiers are folded in twos or the ceiling is below that size and two of the largest in its tier |
| MergePolicy.DefaultFoldsMore | crates/index/src/manifest.rs:172-180 | with the default policy that never happens to a segment under 1000 bytes |
| MergeCost.ReplacedSum | crates/index/src/merger.rs:99-112 | replacing some entries by one loses and invents nothing, whatever is summed |
| MergeCost.LevelRises | crates/index/src/manifest.rs:206-242 | a merge puts every byte at least one level above where it was |
| MergeCost.WorkIsBounded | crates/index/tests/merge_policy.rs:30-62 | over any run of nonempty flushes and merges the bytes rewritten are at most corpus * ((f - 1) * (tier_of(max_merged_bytes) + 1) - 1) |
| MergeCost.Settle | crates/index/src/merger.rs:139-145 | on sizes, merging until the policy is satisfied ends, in fewer merges than there are segments, with the books still balanced |
| Directory.Folder.WriteAtomically | crates/index/src/merger.rs:179-188 | a file is replaced in one step; before that only its scratch file differs |
| Merger.Merger.Step | crates/index/src/merger.rs:72-136 | does nothing, refuses and changes nothing, or ends with the manifest the plan makes; when no removed name is in it, every state a crash could leave is a whole index, and when one is, the final one is not |
| Merger.Merger.Again | crates/index/src/merger.rs:72-136 | from every state a crash leaves with the old manifest in it, the same merge starts again and ends with the same name and the same manifest |
| Merger.Merger.Carry | crates/index/src/merger.rs:80-125 | writes the merged file, then the manifest, then removes, and reports the merged documents, the bytes and the files that stayed; the final directory is a whole index exactly when no removed file is named by the new manifest, if nothing holds the files |
| Merger.Merger.Clean | crates/index/src/merger.rs:118-125 | removes what was merged and reports what resists |
| Merger.ResistingIsHeld | crates/index/src/merger.rs:118-125 | what is reported as left behind is exactly those removed names that somebody holds |
| Merger.MergeKeepsDocuments | crates/index/src/merger.rs:99-112 | a merge keeps every document as often as it was there |
| Merger.Merger.SafeByName | crates/index/src/merger.rs:88-125 | whatever files there are, a merge deletes a file its own manifest names exactly when an entry it leaves alone, or the result, goes by the name of one it takes |
| Merger.Merger.SafeExactly | crates/index/src/merger.rs:88-125 | where no other bytes stand under the result's name, that is read off the old manifest: an entry it leaves alone goes by the name of one it takes, or one it takes goes by its digest and all the others hold no document |
| Merger.Merger.SafeUnlessEmptyPair | crates/index/src/merger.rs:88-125 | where every name is made from a digest and no two entries share one, that is exactly folding one segment with one that holds no document |
| Merger.Merger.ItselfClashes | crates/index/src/merger.rs:88-125 | where one segment of the plan goes by its digest and the others hold nothing, the result is that segment again, under the name of a file about to be deleted |
| Merger.Merger.SafeUnlessPairable | crates/index/src/merger.rs:88-125 | where every name is made from a digest and no two entries share one, a policy that never folds the smallest file there is with just one other never deletes a file its manifest names |
| BrokenMerge.Break | crates/index/src/merger.rs:72-136 | an index written out that meets that condition: one merge succeeds and leaves a directory that is not the index its manifest names |
| BrokenMerge.PairBreaks | crates/index/src/merger.rs:88-125 | such an index: pages and an empty segment, folded in twos |
| BrokenMerge.DefaultBreaks | crates/index/src/merger.rs:88-125 | such an index under the default policy: a small segment named after its digest and seven empty ones under any names |
| BrokenMerge.TwiceListedBreaks | crates/index/src/merger.rs:88-125 | such an index without an empty segment: the same contents listed twice under its digest name |
| FileSize.FileAtLeast | crates/index/src/builder.rs:309-501 | a file takes 108 bytes and sixteen for every document at least |
| Settling.RunToCompletion | crates/index/src/merger.rs:139-145 | the loop over whole merges ends, on the segments the policy's plans make one after another, with the policy satisfied or with a refusal where segments of different settings are to be folded; every state on the way is an index of the very documents it started with |
| Example.MergeTwoPages | crates/index/src/merger.rs:139-145 | an index of two pages, a naming and an arithmetic of which everything assumed of that loop is true: it ends with one segment of both |
| Example.TallyIsLawful | crates/index/src/manifest.rs:63-125 | what is assumed of a manifest's encoding and of names can be had |
| Settling.NamesDiffer | crates/index/src/merger.rs:88-94 | among segments whose names tell their files apart, with none empty and no document twice, no two share a name |
| Replication.FetchChunks | crates/cluster/src/replication.rs:70-101 | chunks are appended to a scratch file only; from an honest source they are the source's bytes |
| Replication.FetchNamed | crates/cluster/src/replication.rs:56-128 | a segment is put in place only if what was written opens, verifies and has the announced digest; otherwise nothing but the scratch file changed, in every state on the way |
| Replication.SyncFrom | crates/cluster/src/replication.rs:168-205 | a sync that succeeds has fetched exactly the named segments that were not there with their digest, in order, unless the answered manifest gives a name two digests; when a name means the same contents in the manifest held and the one answered, every state opens as the one or the other and a failure leaves the old one; a sync that succeeds goes through a state that opens as nothing exactly when some name does not; success installs exactly the answered manifest, and a sincere source always succeeds |
| Replication.ConflictOpensAsNothing | crates/cluster/src/replication.rs:182-203 | once new contents stand under a name the old manifest gives to others, the directory is no index at all |
| BrokenSync.Break | crates/cluster/src/replication.rs:168-205 | a replica and a sincere source that use one name for two segments: the sync succeeds, by way of a state that opens as nothing |
| BrokenSync.PagesConflict | crates/cluster/src/replication.rs:168-205 | any two lists of pages whose files have different digests are such a pair, under any one name |
| Replication.OpensWhenWhole | crates/index/src/index.rs:152-165 | a directory opens exactly when its manifest can be read and every file it names is there with its digest |
| Replication.Replica.Refresh | crates/cluster/src/shard.rs:217-239 | a failed refresh leaves the served index alone; a successful one serves what the directory now holds, which is the manifest the source, if there is one, answered, and says which segments were fetched and how many there are |
| Spool.SpoolFile.AppendPage | crates/crawl/src/checkpoint.rs:173-181 | one record: length, payload, checksum |
| Spool.ReadSpool | crates/crawl/src/checkpoint.rs:212-244 | reads up to the limit, stops at a short or broken record, and fails when that is too few, on any bytes |
| Spool.PageRoundTrip | crates/crawl/src/checkpoint.rs:117-141 | a page comes back from its payload, every text of it |
| Spool.SpoolRoundTrip | crates/crawl/src/checkpoint.rs:212-244 | as many pages as are whole on disk are read back exactly, whatever a crash left behind them |
| Spool.PagesAreSealed | crates/crawl/src/checkpoint.rs:212-244 | whatever bytes there are, every page read back stands sealed: its payload behind its length and before its own checksum, one record after another from the start |
| Frontier.Frontier.Seed | crates/crawl/src/frontier.rs:89-92 | a starting point defines an allowed host and is queued at depth zero |
| Frontier.Frontier.Enqueue | crates/crawl/src/frontier.rs:99-128 | anchor text is kept even for a url already seen; a url is queued once, within depth and hosts |
| Frontier.Frontier.NextUrl | crates/crawl/src/frontier.rs:137-154 | breadth first, hosts past their limit passed over, the url popped at the page budget lost |
| Frontier.Frontier.Completed | crates/crawl/src/frontier.rs:228-230 | the url is no longer owed |
| Frontier.Frontier.Save | crates/crawl/src/checkpoint.rs:434-458 | the queue followed by everything in flight, each once, and every other part as it is |
| Frontier.Rebuild | crates/crawl/src/checkpoint.rs:466-485 | refused exactly when a queued url does not parse; otherwise a restored frontier is what was saved and owes nothing |
| Budget.BudgetHolds | crates/crawl/src/frontier.rs:137-154 | in every state of a crawl the pages handed out, counted from its steps, are as many as the frontier counts, in all and for each host, and never more than max_pages and max_pages_per_host |
| Budget.TakenIsFront | crates/crawl/src/frontier.rs:137-154 | first in, first out: what is handed out or passed over is the front of the queue in its order |
| Budget.TakenCounts | crates/crawl/src/frontier.rs:137-154 | handing a url out counts it once, in all and for its host, and only below both limits |
| Budget.LimitsHold | crates/crawl/src/frontier.rs:99-128 | in every state of a crawl nothing queued or in flight is too deep or off the starting hosts, and at most 32 different texts are kept for a url |
| Budget.OfferedExactly | crates/crawl/src/frontier.rs:99-128 | a url is queued exactly when it was never seen, is not too deep and is on a host that may be visited |
| Budget.AnchorIsKept | crates/crawl/src/frontier.rs:99-128 | an anchor's trimmed text is kept behind those before it unless it is empty, there already, or one too many |
| Budget.RestoredIsSaved | crates/crawl/src/checkpoint.rs:434-485 | a restored frontier is the one saved with everything in flight back in the queue |
| Crawl.TakenAccounts | crates/crawl/src/frontier.rs:137-154 | taking moves the front of the queue: one url into flight at most, the others dropped |
| Crawl.StepKeeps | crates/crawl/src/lib.rs:280-375 | after every step of every worker and the indexer each url seen is queued, in flight, done or dropped, and a saved frontier agrees with the spool |
| Crawl.ReceivingIsSteps | crates/cli/src/main.rs:353-380 | spooling a page and then accounting for it are two steps of a crawl |
| Crawl.SavingIsSteps | crates/cli/src/main.rs:401-411 | flushing and then saving are two more |
| Crawl.CrashLosesNothing | crates/cli/src/main.rs:326-411 | after a crash anywhere in a first run the spool gives back exactly the pages the saved frontier counts, none of them is queued again, and every url it has seen is given back, queued, or was dropped by a limit |
| Crawl.Indexer.Receive | crates/cli/src/main.rs:353-380 | a page is spooled before it is no longer owed; when it is the interval-th since the last save the spool is flushed and a frontier counting every page is saved, otherwise what is saved stays; in a crawl, first or resumed, this is steps of it |
| Crawl.Indexer.Save | crates/cli/src/main.rs:378-411 | the spool is flushed before the frontier that counts on it is saved, and that counts every page received, the last save of a run too; in a crawl these are steps of it |
| Crawl.Indexer.CrashCosts | crates/cli/src/main.rs:371-375 | between pages fewer than max(interval, 1) of them are not counted by what is saved |
| Crawl.Indexer.DiskIsLeft | crates/cli/src/main.rs:353-411 | what a run has put in the spool's file at any moment between pages is what a crash is proved to leave |
| Resume.ResumedTwiceIsExact | crates/crawl/src/checkpoint.rs:162-165 | after any resumed run and a crash, the second resume reads the file's first pages, as many as that run had spooled; of the pages the two frontiers count, none of which is queued again, at least as many as the first counted are lost, and all come back exactly when it counted none and the pages cut off at the end had been fetched before |
| Resume.WholeFileIsExact | crates/crawl/src/checkpoint.rs:162-165 | where the file held just what the first frontier counts, no page is lost exactly when it was empty |
| Resume.FirstRunStarts | crates/crawl/src/checkpoint.rs:434-458 | a first crawl that crashes leaves what these two speak of |
| Resume.FinishedIsForgotten | crates/cli/src/main.rs:378-380 | resuming over a finished crawl saves a frontier that counts no page, so the next resume gets none and queues none |
| Resume.ResumedTwiceLoses | crates/crawl/src/checkpoint.rs:162-165 | one page fetched and saved: the first resume gives it back, the second does not |
| Resume.TornIsExact | crates/crawl/src/checkpoint.rs:173-181 | behind a record torn by a crash nothing appended can be read: a resume succeeds exactly when it wants no more than the whole records before it |
| Resume.LengthAloneIsTorn | crates/crawl/src/checkpoint.rs:212-244 | such a record is a length in front of fewer bytes than it says |
| Resume.InFlightIsCountedTwice | crates/crawl/src/checkpoint.rs:434-485 | a saved frontier counts as handed out the pages spooled and those in flight, which it queues again; a first and a resumed run together fetch at most max_pages less what was in flight |
| Ndcg.Judged.IdealRanking | crates/eval/src/metrics.rs:73-77 | the grades of the relevant documents, best first |
| Ndcg.PrefixDominated | crates/eval/src/metrics.rs:173-195 | any n different documents gain at most what the best n do |
| Ndcg.RunIsDominated | crates/eval/src/metrics.rs:173-187 | a run without repeats has at most the ideal's discounted gain |
| Ndcg.NearerGainsMore | crates/eval/src/metrics.rs:181-187 | moving a more relevant document nearer the top gains strictly more |
| Ndcg.GainDoubles | crates/eval/src/metrics.rs:189-195 | each grade gains twice the one below and one more, up to the thirty-first; an irrelevant document gains nothing |
| Ndcg.Judged.NdcgAt | crates/eval/src/metrics.rs:173-179 | the ratio of the two gains, zero when nothing is relevant, and within zero and one for every judgement set, every k and every run whose first k name no document twice |
| Ndcg.NoRepeatsIsExact | crates/eval/src/metrics.rs:173-187 | a top k gains at most the ideal for every judgement set exactly when it names no document twice |
| Ndcg.RepeatsGainMore | crates/eval/src/metrics.rs:173-187 | any top k with a repeat gains more than the ideal once all its documents are judged relevant |
| Ndcg.RepeatsCanExceed | crates/eval/src/metrics.rs:173-179 | a run naming its one relevant document twice scores above one |
| Robots.PathMatches | crates/crawl/src/robots.rs:200-236 | the greedy loop over the pieces between stars |
| Robots.UnanchoredIsExact | crates/crawl/src/robots.rs:200-236 | without a final $ the answer is yes exactly when the pattern covers a prefix of the path |
| Robots.AnchoredIsExact | crates/crawl/src/robots.rs:230-235 | with a final $ it is yes exactly when the pattern covers the whole path and, unless it ends in a star, no proper prefix of it |
| Robots.AnchoredCanMiss | crates/crawl/src/robots.rs:230-235 | a pattern that covers a path it is said not to match |
| Robots.Robots.Allows | crates/crawl/src/robots.rs:177-193 | allowed unless a rule matches and every longest matching rule is a Disallow |
| Robots.OrderDoesNotMatter | crates/crawl/src/robots.rs:177-193 | the order of the rules does not matter |
| JumpHash.JumpToBucket | crates/proto/src/routing.rs:39-55 | the loop ends and its result is below the bucket count |
| JumpHash.OwnerIsMonotone | crates/proto/src/routing.rs:39-55 | with more buckets a key keeps its owner or moves to a bucket that was not there |
| JumpHash.JumpReaches | crates/proto/src/routing.rs:45-52 | a jump from bucket b reaches t exactly when (b + 1) * 2^31 >= t * (top + 1), top being the key's upper 31 bits |
| JumpHash.ReachCount | crates/proto/src/routing.rs:45-52 | of the 2^31 upper bits exactly (b + 1) * 2^31 / t, rounded down, carry a jump from b to t or past it |
| JumpHash.EveryBucketOwns | crates/proto/src/routing.rs:39-55 | with up to 46341 buckets every one of them owns some key |
| JumpHash.FirstBucketOwns | crates/proto/src/routing.rs:39-55 | the first bucket owns a key exactly while there are at most 2^31 |

## Left out

- Scoring.LengthNorm: parameters have 0 <= b <= 1; the source also accepts b > 1, with which the length discount can be negative and bounds mean nothing.
- Search.StoredBoundsBound: over the reals, for stored bounds that are not rounded down; rounding of `f32` is not modelled.
- Answer.SearchSegment: on segments a builder wrote; a damaged segment is an error of the readers (`Segment.Open`, `Segment.FindTerm`, `Postings.DecodePostings`), but the walk over one is not modelled. Hits that agree in score and uri are left in heap order, which the source does not fix. Supplied statistics must not claim fewer documents than hold a term.
- Answer.OpenScan: as `Answer.SearchSegment`.
- Segment.Open: offsets of a corrupt footer are added without overflow, and term and uri bytes are not checked to be UTF-8.
- Segment.FindTerm: a position outside the file is an error where the source would panic on a footer that lies about its tables.
- Postings.DecodePostings: a document id that passes 32 bits wraps, as in a release build.
- SegmentWriter.Encode: for builders whose file fits 64-bit offsets and whose dictionary fits 32-bit ones, past which the source panics or could not have held the file, and with fewer than 2^32 documents.
- SegmentRoundTrip.OpenRoundTrip: the digest and which parameters are usable are uninterpreted.
- Merge.MergeIsByteExact: parameters are compared as bit patterns, so positive and negative zero differ here and not in the source.
- Coordinator.TermStatistics: over shards that answer what they are asked; other answers are `Coordinator.AddStatistics`.
- PowerIteration.Pagerank: over the reals, so bit-for-bit agreement between the three runs is not claimed, and offsets are not bounded by 32 bits.
- DistributedRank.Run: for a web with at least one page; with none, one process reports zero iterations and the shards one.
- MergeCost.WorkIsBounded: for a ceiling below the 64-bit maximum, so that no sum in the policy's loop saturates. Documents are not deleted, as in the source.
- Merger.Merger.Step: assumes the merged segment fits the format and that no other file goes by its name; and a crash in the middle of one write leaves the scratch file empty or whole.
- MergeCost.Settle: sizes only, the size of a merge being the sum of its parts; the loop on a directory is `Settling.RunToCompletion`.
- Settling.RunToCompletion: names are made from digests and tell apart the files of finitely many segments, those there are and those the merges make; no segment is empty, no document is there twice, and every merge the policy asks for fits the format. `Merger.Merger.SafeExactly` is the condition for one merge without these.
- Merger.Merger.SafeExactly: no other bytes stand under the result's name, which a file with a hand-given name could hold; it would be overwritten. A segment without documents has no terms either, as every builder leaves it.
- Replication.SyncFrom: one connection's calls are a numbered sequence of arbitrary answers; sockets and timeouts are not modelled. With a conflict of names, a sync that fails may or may not leave the old index whole.
- Directory.Folder.WriteAtomically: a segment is never called MANIFEST, nor what a file is called while it is written; in the source these are names in one directory, and a manifest listing one would land on it.
- Crawl.CrashLosesNothing: pages are sent under the url that was handed out (no redirects), appends succeed, and the spool was empty at the start; for a resumed run `Resume.ResumedTwiceIsExact` says what is lost.
- Resume.ResumedTwiceIsExact: the first crash falls between two records; one inside a record is `Resume.TornIsExact`.
- Frontier.Rebuild: which urls parse is a parameter; the checkpoint's line format is not modelled.
- Spool.ReadSpool: text is bytes; where the source replaces what is not UTF-8 the model keeps it, which makes no difference to records it wrote.
- Robots.Robots.Allows: which group of a robots.txt applies is decided elsewhere; parsing the file is not modelled.
- JumpHash.JumpToBucket: the division is exact; `f64` rounding is not modelled, and `hash_url` is not part of this model.
- JumpHash.EveryBucketOwns: past 46,341 buckets only of the first is it said whether it owns a key; the source's buckets are shards.
- Ndcg.Judged.NdcgAt: the discount 1 / log2(i + 2) is any positive sequence that falls.
- Phrase queries, snippets, tokenising, HTML extraction and URL resolution: they depend on libraries or are tables.
- The message and frame codecs: tagged fields over the varints proved here.
- Leases, the robots.txt cache, the command line, printing and statistics for display: too small next to the rest.
- Orphan listing, replica selection on connect, and the networked servers' loops: no state of their own.
- Concurrent callers of one builder, directory or replica: each call is one step.
