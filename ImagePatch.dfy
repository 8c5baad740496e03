/** The text transform of `updateContainerImage`: the empty
    `container_image = ""` line of `terraform.tfvars` is filled in with the
    pushed image name. Reading and writing the file are not modelled. */
module ImagePatch {
  import opened Text
  import TerraformVars

  /** Every non-overlapping occurrence of the empty image line, scanning from
      the left, becomes the line naming `image` (Java `String.replace`). */
  function UpdateContainerImage(content: string, image: string): string
  {
    Replace(content, TerraformVars.Placeholder, TerraformVars.ImageLine(image))
  }

  /** Text without the empty image line comes back unchanged. */
  lemma PatchWithoutPlaceholder(content: string, image: string)
    requires !Contains(content, TerraformVars.Placeholder)
    ensures UpdateContainerImage(content, image) == content
  {
    ReplaceWithoutOccurrence(content, TerraformVars.Placeholder, TerraformVars.ImageLine(image));
  }

  /** With a single empty image line at `i`, the filled line is spliced in at
      `i` and every other character is kept. */
  lemma PatchSplices(content: string, image: string, i: int)
    requires OnlyOccurrence(content, TerraformVars.Placeholder, i)
    ensures UpdateContainerImage(content, image) ==
            content[..i] + TerraformVars.ImageLine(image) + content[i + |TerraformVars.Placeholder|..]
    ensures OccursAt(UpdateContainerImage(content, image), TerraformVars.ImageLine(image), i)
  {
    var p := TerraformVars.Placeholder;
    var rep := TerraformVars.ImageLine(image);
    ReplaceOnlyOccurrence(content, p, rep, i);
    var r := content[..i] + rep + content[i + |p|..];
    assert r[i..i + |rep|] == rep;
  }

  /** The characters of the empty image line the proofs below rely on: one
      `c`, at the front; the `=` at 16; the two closing quotes and no quote
      before them. The filled line shares its first 19 characters. */
  lemma PlaceholderShape(image: string)
    ensures |TerraformVars.Placeholder| == 20
    ensures TerraformVars.Placeholder[0] == 'c' && TerraformVars.Placeholder[16] == '='
    ensures TerraformVars.Placeholder[19] == '"'
    ensures forall k :: 1 <= k < 20 ==> TerraformVars.Placeholder[k] != 'c'
    ensures forall k :: 0 <= k < 18 ==> TerraformVars.Placeholder[k] != '"'
    ensures TerraformVars.ImageLine(image) == TerraformVars.Placeholder[..19] + image + "\""
  {
  }

  /** The shape of the empty image line that the splice argument needs. */
  ghost predicate PlaceholderLike(p: string)
  {
    |p| == 20 && p[0] == 'c' && p[16] == '=' && p[19] == '"' &&
    (forall k :: 1 <= k < 20 ==> p[k] != 'c') &&
    (forall k :: 0 <= k < 18 ==> p[k] != '"')
  }

  /** No occurrence of `p` can start inside the filled line: `k` is a
      position where `p`, laid from index `d` of the filled line, differs
      from it. */
  lemma FilledLineMismatch(p: string, image: string, d: int) returns (k: nat)
    requires PlaceholderLike(p)
    requires image != [] && '"' !in image && '=' !in image
    requires 0 <= d < |p[..19] + image + "\""|
    ensures k < |p| && d + k < |p[..19] + image + "\""|
    ensures (p[..19] + image + "\"")[d + k] != p[k]
  {
    var rep := p[..19] + image + "\"";
    var n := |rep|;
    if d == 0 {
      k := 19;
      assert rep[19] == image[0] && image[0] in image;
    } else if d < 19 {
      k := 0;
      assert rep[d] == p[d];
    } else if d + 16 < n - 1 {
      k := 16;
      assert rep[d + 16] == image[d + 16 - 19] && image[d + 16 - 19] in image;
    } else if d + 16 == n - 1 {
      k := 16;
    } else if d < n - 1 {
      k := n - 1 - d;
    } else {
      k := 0;
    }
  }

  /** The splice argument on the characters alone: splicing the filled line
      into the only occurrence of `p` leaves no occurrence of `p`. */
  lemma {:induction false} SpliceLeavesNoOccurrence(content: string, p: string, image: string, i: int)
    requires PlaceholderLike(p)
    requires OnlyOccurrence(content, p, i)
    requires image != [] && '"' !in image && '=' !in image
    ensures !Contains(content[..i] + (p[..19] + image + "\"") + content[i + 20..], p)
  {
    var rep := p[..19] + image + "\"";
    var r := content[..i] + rep + content[i + 20..];
    var n := |rep|;
    forall j | 0 <= j <= |r| - 20
      ensures !OccursAt(r, p, j)
    {
      if j + 20 <= i {
        assert r[j..j + 20] == content[j..j + 20];
        assert !OccursAt(content, p, j);
      } else if j < i {
        assert r[j..j + 20][i - j] == r[i] == rep[0] == p[0];
        assert p[i - j] != 'c';
      } else if j < i + n {
        var k := FilledLineMismatch(p, image, j - i);
        assert r[j..j + 20][k] == r[j + k] == rep[j - i + k];
      } else {
        var m := j - n + 20;
        assert r[j..j + 20] == content[m..m + 20];
        assert !OccursAt(content, p, m);
      }
    }
  }

  /** The filled line `container_image = "<image>"` with a non-empty image
      free of `"` and `=`, put in place of the only empty image line, leaves
      no empty image line behind. (The `=` exclusion is needed: the image
      `container_image = ` in front of a stray `"` recreates the empty line.) */
  lemma PatchClearsPlaceholder(content: string, image: string, i: int)
    requires OnlyOccurrence(content, TerraformVars.Placeholder, i)
    requires image != [] && '"' !in image && '=' !in image
    ensures !Contains(UpdateContainerImage(content, image), TerraformVars.Placeholder)
  {
    PlaceholderShape(image);
    assert PlaceholderLike(TerraformVars.Placeholder);
    PatchSplices(content, image, i);
    SpliceLeavesNoOccurrence(content, TerraformVars.Placeholder, image, i);
  }

  /** Once the only empty image line has been filled, patching again with any
      image leaves the text as it is. */
  lemma PatchTwiceIsPatchOnce(content: string, image: string, other: string, i: int)
    requires OnlyOccurrence(content, TerraformVars.Placeholder, i)
    requires image != [] && '"' !in image && '=' !in image
    ensures UpdateContainerImage(UpdateContainerImage(content, image), other) ==
            UpdateContainerImage(content, image)
  {
    PatchClearsPlaceholder(content, image, i);
    PatchWithoutPlaceholder(UpdateContainerImage(content, image), other);
  }
}
