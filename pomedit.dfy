/**
 * Adding a dependency block to a Maven pom.xml the way the generators do:
 * `pom.replace('</dependencies>', block + '\n    </dependencies>')`, that
 * is, in front of the FIRST closing tag only, optionally guarded by an
 * `includes` test that skips the insertion.
 */
module PomEdit {
  import opened JsString

  const Closing: string := "</dependencies>"

  /** What the closing tag is replaced with. */
  function Insertion(block: string): string
  {
    block + "\n    " + Closing
  }

  /** The unguarded insertion. */
  function InsertBlock(pom: string, block: string): string
  {
    ReplaceFirst(pom, Closing, Insertion(block))
  }

  /** The guarded insertion: nothing happens when the pom already contains `guard`. */
  function InsertUnlessPresent(pom: string, block: string, guard: string): string
  {
    if Includes(pom, guard) then pom else InsertBlock(pom, block)
  }

  /**
   * The block and a newline-and-indent land immediately before the first
   * `</dependencies>`; everything before and after is kept. A pom without
   * the tag is returned unchanged.
   */
  lemma InsertBlockSpec(pom: string, block: string)
    ensures !Includes(pom, Closing) ==> InsertBlock(pom, block) == pom
    ensures Includes(pom, Closing) ==>
      exists i :: FirstMatch(pom, Closing, i) &&
        InsertBlock(pom, block) == pom[..i] + block + "\n    " + pom[i..]
  {
    if Includes(pom, Closing) {
      var i := FirstMatchExists(pom, Closing);
      ReplaceFirstAt(pom, Closing, Insertion(block), i);
      assert pom[i..] == Closing + pom[i + |Closing|..] by {
        assert pom[i..i + |Closing|] == Closing;
      }
    } else {
      ReplaceFirstAbsent(pom, Closing, Insertion(block));
    }
  }

  /** After an insertion into a pom with the tag, the pom holds the block and still has the tag. */
  lemma InsertBlockContains(pom: string, block: string)
    requires Includes(pom, Closing)
    ensures Includes(InsertBlock(pom, block), block)
    ensures Includes(InsertBlock(pom, block), Closing)
    ensures |InsertBlock(pom, block)| == |pom| + |block| + 5
  {
    var i := FirstMatchExists(pom, Closing);
    ReplaceFirstAt(pom, Closing, Insertion(block), i);
    var rest := pom[i + |Closing|..];
    assert InsertBlock(pom, block) == pom[..i] + block + ("\n    " + Closing + rest);
    IncludesSelf(pom[..i], block, "\n    " + Closing + rest);
    assert InsertBlock(pom, block) == pom[..i] + block + "\n    " + Closing + rest;
    IncludesSelf(pom[..i] + block + "\n    ", Closing, rest);
  }

  /** Unguarded insertion is not idempotent: a second call adds a second copy. */
  lemma InsertBlockTwice(pom: string, block: string)
    requires Includes(pom, Closing)
    ensures |InsertBlock(InsertBlock(pom, block), block)| == |pom| + 2 * (|block| + 5)
    ensures InsertBlock(InsertBlock(pom, block), block) != InsertBlock(pom, block)
  {
    InsertBlockContains(pom, block);
    InsertBlockContains(InsertBlock(pom, block), block);
  }

  /**
   * Guarded insertion is idempotent when the block itself contains the
   * guard: running it twice gives the same pom as running it once.
   */
  lemma InsertUnlessPresentIdempotent(pom: string, block: string, guard: string)
    requires Includes(block, guard)
    ensures InsertUnlessPresent(InsertUnlessPresent(pom, block, guard), block, guard)
         == InsertUnlessPresent(pom, block, guard)
  {
    if !Includes(pom, guard) && Includes(pom, Closing) {
      InsertBlockContains(pom, block);
      IncludesTrans(InsertBlock(pom, block), block, guard);
    } else if !Includes(pom, guard) {
      InsertBlockSpec(pom, block);
    }
  }
}
