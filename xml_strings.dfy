/** The two string helpers of XmlStructureExtensionMethods that the renderer applies
    to run text and to attribute values. */
module XmlStructureExtensions {
  import Sequences

  /** Aspose's line-break control character (ControlChar.LineBreak, a vertical tab). */
  const LineBreak: char := '\U{B}'

  /** Environment.NewLine on the Windows hosts the visualizer runs in. */
  const NewLine: string := "\r\n"

  const Quote: char := '"'

  /** Number of occurrences of `c` in `s`. */
  function Count(c: char, s: string): nat
  {
    if s == [] then 0 else (if s[0] == c then 1 else 0) + Count(c, s[1..])
  }

  /** Escape: every line-break character of `subject` is replaced by the new-line string;
      nothing else changes, so the text grows by one character per line break. */
  function Escape(subject: string): (r: string)
    ensures LineBreak !in r
    ensures |r| == |subject| + (|NewLine| - 1) * Count(LineBreak, subject)
  {
    if subject == [] then []
    else (if subject[0] == LineBreak then NewLine else [subject[0]]) + Escape(subject[1..])
  }

  /** Escape works character by character: escaping a concatenation escapes each part. */
  lemma {:induction false} EscapeDistributes(a: string, b: string)
    ensures Escape(a + b) == Escape(a) + Escape(b)
  {
    if a == [] {
      assert a + b == b;
    } else {
      Sequences.ConcatTail(a, b);
      EscapeDistributes(a[1..], b);
    }
  }

  /** A line break becomes the new-line string. */
  lemma EscapeLineBreak()
    ensures Escape([LineBreak]) == NewLine
  {
  }

  /** Text without a line break is left exactly as it is. */
  lemma {:induction false} EscapeIdentity(s: string)
    requires LineBreak !in s
    ensures Escape(s) == s
  {
    if s != [] {
      assert s[0] in s;
      assert forall c :: c in s[1..] ==> c in s;
      EscapeIdentity(s[1..]);
      assert [s[0]] + s[1..] == s;
    }
  }

  /** Escaping twice is the same as escaping once. */
  lemma EscapeIdempotent(s: string)
    ensures Escape(Escape(s)) == Escape(s)
  {
    EscapeIdentity(Escape(s));
  }

  /** EncapsulateWithQuotes: the subject, unchanged and unescaped, between two quote characters. */
  function EncapsulateWithQuotes(subject: string): (r: string)
    ensures |r| == |subject| + 2
    ensures r[0] == Quote && r[|r| - 1] == Quote
    ensures r[1..|r| - 1] == subject
  {
    [Quote] + subject + [Quote]
  }
}
