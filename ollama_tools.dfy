/** The arithmetic tools of `simple-rag/ollama_tools.py`, the older copy of the
    calculator tools. */
module OllamaTools {
  import Calculator

  /** The `multiply` tool: total over the integers, no error case. */
  function Multiply(a: int, b: int): (r: int)
    ensures r == 0 <==> a == 0 || b == 0
    ensures r > 0 <==> (a > 0 && b > 0) || (a < 0 && b < 0)
  {
    a * b
  }

  /** The `add` tool: total over the integers, no error case. */
  function Add(a: int, b: int): (r: int)
    ensures r - a == b && r - b == a
  {
    a + b
  }

  /** Both copies of the tools compute the same thing on every input. */
  lemma AgreesWithCalculator(a: int, b: int)
    ensures Add(a, b) == Calculator.Add(a, b)
    ensures Multiply(a, b) == Calculator.Multiply(a, b)
  {
  }
}
