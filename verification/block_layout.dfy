/** Where a block of `generateTypes` output lands: after the lines of the
    blocks before it in its section, followed by one blank line. Kept apart
    from the layout module so that its sequence reasoning stays small. */
module BlockLayout {
  import opened Seqs
  import opened Generator

  lemma {:induction false} BlocksAppend(a: seq<seq<string>>, b: seq<seq<string>>)
    ensures Blocks(a + b) == Blocks(a) + Blocks(b)
  {
    if a == [] {
      assert a + b == b;
    } else {
      assert (a + b)[1..] == a[1..] + b;
      BlocksAppend(a[1..], b);
    }
  }

  /** Block `i` follows the lines of the blocks before it and is itself
      followed by a blank line. */
  lemma BlockPosition(blocks: seq<seq<string>>, i: nat)
    requires i < |blocks|
    ensures Blocks(blocks) == Blocks(blocks[..i]) + blocks[i] + [""] + Blocks(blocks[i + 1..])
  {
    var before := blocks[..i];
    var block := blocks[i];
    var after := blocks[i + 1..];
    assert Blocks(blocks) == Blocks(before + [block]) + Blocks(after) by {
      SplitAt(blocks, i);
      BlocksAppend(before + [block], after);
    }
    assert Blocks(before + [block]) == Blocks(before) + (block + [""]) by {
      BlocksAppend(before, [block]);
      assert Blocks([block]) == block + [""] + Blocks([]);
    }
    SeqAssoc(Blocks(before), block, [""]);
  }

  /** Block `i` of section `k`, for output made of a header and then the
      sections' lines. */
  lemma BlockInSections(out: seq<string>, head: seq<string>, ss: seq<seq<string>>, k: nat,
                        heading: string, blocks: seq<seq<string>>, i: nat)
    requires k < |ss| && i < |blocks|
    requires ss[k] == [heading] + Blocks(blocks)
    requires out == head + Flatten(ss)
    ensures FramedAt(out, |head| + |Flatten(ss[..k])|, heading, Blocks(blocks[..i]), blocks[i], "")
  {
    BlockPosition(blocks, i);
    SectionFramed(out, head, ss, k, heading, Blocks(blocks), Blocks(blocks[..i]), blocks[i], "",
                  Blocks(blocks[i + 1..]));
  }
}
