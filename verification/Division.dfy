/** Facts about integer division that the solver needs spelled out. */
module Division {

  lemma QuotientBounds(a: nat, b: nat)
    requires b > 0
    ensures b * (a / b) <= a < b * (a / b) + b
  {
  }

  lemma Cancel(b: nat, x: int, y: int)
    requires b * x < b * y
    ensures x < y
  {
  }

  lemma QuotientUnique(a: nat, b: nat, q: nat)
    requires b > 0 && b * q <= a < b * q + b
    ensures q == a / b
  {
    QuotientBounds(a, b);
    Cancel(b, q, a / b + 1);
    Cancel(b, a / b, q + 1);
  }

  lemma DivideMonotone(a: nat, b: nat, d: nat)
    requires a <= b && d > 0
    ensures a / d <= b / d
  {
    QuotientBounds(a, d);
    QuotientBounds(b, d);
    Cancel(d, a / d, b / d + 1);
  }
}
