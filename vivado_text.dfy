/**
 The fixed text of a generated Vivado constraints file: the two header entries
 and the literal fragments of the block lines, and the fact that none of them
 holds a line break of its own.
 */
module VivadoText {

  /** The first header entry (written as two literals, which lets the verifier
      see quickly that it holds no newline). */
  const HeaderTitle := "# Automatically generated " + "Vivado constraints file"

  /** The text of the second header entry before its embedded newline. */
  const SourceLine := "# Generated from I/O mapping CSV data"

  /** The second header entry as the generator appends it: it ends in a newline,
      so the joined text has a blank line after the header. */
  const HeaderSource := SourceLine + "\n"

  lemma HeaderSingleLine()
    ensures '\n' !in HeaderTitle && '\n' !in SourceLine
  {
  }

  /** The literal fragments of a resolved block's comment line hold no newline. */
  lemma CommentFragmentsSingleLine()
    ensures '\n' !in "# " && '\n' !in " - " && '\n' !in "." && '\n' !in " (" && '\n' !in ")"
  {
  }

  /** The literal fragments of the two directives hold no newline. */
  lemma DirectiveFragmentsSingleLine()
    ensures '\n' !in " [get_ports " && '\n' !in "]" && '\n' !in "LVCMOS"
    ensures '\n' !in "set_property PACKAGE_PIN " && '\n' !in "set_property IOSTANDARD "
  {
  }

  /** The literal fragments of an error line hold no newline. */
  lemma ErrorFragmentsSingleLine()
    ensures '\n' !in "# ERROR: Could not find mapping for " && '\n' !in " on " && '\n' !in "."
  {
  }
}
