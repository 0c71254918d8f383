/** The two blocks of configuration pragmas written into `main.adc`. */
module Pragmas {

  /** The restriction pragmas every project is compiled under. */
  const CommonAdc: string :=
    "\npragma Restrictions (No_Specification_of_Aspect => Import);\n"
    + "pragma Restrictions (No_Use_Of_Pragma => Import);\n"
    + "pragma Restrictions (No_Use_Of_Pragma => Interface);\n"
    + "pragma Restrictions (No_Dependence => System.Machine_Code);\n"
    + "pragma Restrictions (No_Dependence => Machine_Code);\n"

  /** The pragmas added for a SPARK project. */
  const SparkAdc: string :=
    "\npragma Profile(GNAT_Extended_Ravenscar);\n"
    + "pragma Partition_Elaboration_Policy(Sequential);\n"
    + "pragma SPARK_Mode (On);\n"
    + "pragma Warnings (Off, \"no Global contract available\");\n"
    + "pragma Warnings (Off, \"subprogram * has no effect\");\n"
    + "pragma Warnings (Off, \"file name does not match\");\n"

  /**
   * The content of `main.adc`: the restriction block alone, or, for a SPARK
   * project, the restriction block, a newline and the SPARK block.
   */
  function AdcContent(sparkMode: bool): string {
    if sparkMode then CommonAdc + "\n" + SparkAdc else CommonAdc
  }

  /**
   * Every project gets the restriction block first; a SPARK project gets
   * exactly a newline and the SPARK block after it, and only a SPARK project
   * gets anything after it.
   */
  lemma AdcContentParts(sparkMode: bool)
    ensures CommonAdc <= AdcContent(sparkMode)
    ensures sparkMode ==> AdcContent(sparkMode)[|CommonAdc|..] == "\n" + SparkAdc
    ensures !sparkMode ==> AdcContent(sparkMode) == CommonAdc
  {
    if sparkMode {
      AppendedParts(CommonAdc, "\n", SparkAdc);
    }
  }

  lemma AppendedParts(a: string, b: string, c: string)
    ensures a <= a + b + c && (a + b + c)[|a|..] == b + c
  {
    assert a + b + c == a + (b + c);
  }
}
