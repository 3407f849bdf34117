/** The decompiler's opcode tables: which opcodes read or write a variable as
    an int or as a float, which opcodes consume int or float operands, and the
    operator each arithmetic, unary and assignment opcode stands for. */
module Opcodes {

  const FloatVarCommands: set<int> := {0x3f, 0x40, 0x41, 0x42, 0x43, 0x44, 0x45}
  const IntVarCommands: set<int> := {0x14, 0x15, 0x1c, 0x1d, 0x1e, 0x1f, 0x20, 0x21, 0x22, 0x23, 0x24}
  const VarCommands: set<int> := IntVarCommands + FloatVarCommands + {0xb}

  /** Opcodes whose operands are ints.  The source lists `28` in decimal
      (0x1c, the int store) where the neighbouring entries suggest 0x28 (`<=`);
      the table is kept as written. */
  const UsesInt: set<int> := {0xe, 0xf, 0x10, 0x11, 0x12, 0x13, 0x1d, 0x1e, 0x1f, 0x20, 0x21, 0x24, 0x25, 0x26, 0x27, 28, 0x29, 0x2a}
  const UsesFloat: set<int> := {0x3a, 0x3b, 0x3c, 0x3d, 0x3e, 0x41, 0x42, 0x43, 0x44, 0x45, 0x46, 0x47, 0x48, 0x49, 0x4a, 0x4b}

  const BinaryOperations: map<int, string> := map[
    0xe := "+", 0xf := "-", 0x10 := "*", 0x11 := "/", 0x12 := "%",
    0x16 := "&", 0x17 := "|", 0x19 := "^", 0x1a := "<<", 0x1b := ">>",
    0x25 := "==", 0x26 := "!=", 0x27 := "<", 0x28 := "<=", 0x29 := ">", 0x2a := ">=",
    0x3a := "+", 0x3b := "-", 0x3c := "*", 0x3d := "/",
    0x46 := "==", 0x47 := "!=", 0x48 := "<", 0x49 := "<=", 0x4a := ">", 0x4b := ">="]

  const UnaryOperations: map<int, string> := map[
    0x13 := "-", 0x14 := "++", 0x15 := "--", 0x18 := "~", 0x2b := "!",
    0x3e := "-", 0x3f := "++", 0x40 := "--"]

  const AssignmentOperations: map<int, string> := map[
    0x1c := "=", 0x1d := "+=", 0x1e := "-=", 0x1f := "*=", 0x20 := "/=", 0x21 := "%=",
    0x22 := "&=", 0x23 := "|=", 0x24 := "^=",
    0x41 := "=", 0x42 := "+=", 0x43 := "-=", 0x44 := "*=", 0x45 := "/="]

  /** `decompileCmd` dispatches on lists that equal the keys of the three
      maps above, except that it splits the unary opcodes in two: */
  /** unary operations on a stack value (mscdec.py:276), */
  const StackUnaryOpcodes: set<int> := {0x13, 0x18, 0x2b, 0x3e}
  /** and increment and decrement of a variable slot (mscdec.py:279). */
  const VarUnaryOpcodes: set<int> := {0x14, 0x15, 0x3f, 0x40}
}
