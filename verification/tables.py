"""Writes table_primes.dfy and table_base_point.dfy: the numbers the two proofs about the signer's constants check.

The tables carry no authority of their own. Every entry is checked by the predicates of Primality.dfy and PointTables.dfy;
a wrong entry makes a lemma fail.
"""

import pathlib

Q = 2**255 - 19
ORDER = 2**252 + 27742317777372353535851937790883648493
D = -121665 * pow(121666, -1, Q) % Q
BASE = (
    15112221349535400772501151409588531511454012693041857206046113283949847762202,
    46316835694926478169428394003475163141307993866256225615783033603165251855960,
)

# Each number is prime because the next one is: it has an element of that order.
CHAIN = [
    ("Modulus", Q),
    ("First", 74058212732561358302231226437062788676166966415465897661863160754340907),
    ("Second", 75445702479781427272750846543864801),
    ("Third", 1919519569386763),
    ("Fourth", 8574133),
    ("Fifth", 991),
    ("Eleven", 11),
]

RUNGS = 12
STEPS = 12
WINDOWS = 4
DIVISORS = 12


def chunks(items, size):
    return [items[i : i + size] for i in range(0, len(items), size)]


def element_of_order(n, p):
    g = 2
    while pow(g, (n - 1) // p, n) == 1:
        g += 1
    return pow(g, (n - 1) // p, n)


def power_tables(out, name, n, p):
    b = element_of_order(n, p)
    head = f"{n:#x},\n      {b:#x},\n      "
    out += [
        f"  ghost predicate {name}Leads(e: int, x: int, l: Ladder, e': int, x': int) {{",
        f"    Climbs({head}e, x, l, e', x')",
        "  }\n",
        f"  ghost predicate {name}At(e: int, x: int) {{",
        f"    Reached({head}e, x)",
        "  }\n",
        f"  lemma {name}Start()",
        f"    ensures {name}At(0, 1)",
        "  {",
        f"    assert Climbs({head}0, 1, Done, 0, 1);",
        "  }\n",
    ]
    e, x, before = 0, 1, f"{name}Start"
    for k, windows in enumerate(chunks(chunks(f"{p:b}", RUNGS), WINDOWS)):
        body = [f"    {before}();"]
        for i, bits in enumerate(windows):
            table, start, rows = f"{name}Table{k * WINDOWS + i}", f"{e:#x}, {x:#x}", []
            for bit in bits:
                x = x * x * (b if bit == "1" else 1) % n
                e = 2 * e + int(bit)
                rows.append(f"Rung({'true' if bit == '1' else 'false'}, {x:#x},")
            end = f"{e:#x}, {x:#x}"
            out.append(f"  lemma {table}() returns (l: Ladder)")
            out.append(f"    ensures {name}Leads({start}, l, {end})")
            out.append("  {")
            out.append("    l := " + "\n      ".join(rows) + " Done" + ")" * len(rows) + ";")
            out.append("  }\n")
            body.append(f"    var l{i} := {table}();")
            body.append(f"    ReachedOn({head}{start}, l{i}, {end});")
        out.append(f"  lemma {name}Power{k}()")
        out.append(f"    ensures {name}At({end})")
        out += ["  {"] + body + ["  }\n"]
        before = f"{name}Power{k}"
    assert (e, x) == (p, 1)
    return b, before


def prime(out, name, n, below, p):
    out.append(f"  // ---------------------------------------------------------------- {n}\n")
    b, last = power_tables(out, name, n, p)
    u = pow(b - 1, -1, n)
    w = 1
    while (w * 2 * p) ** 2 <= n:
        w += 1
    out.append(f"  lemma {name}Inverse()")
    out.append(f"    ensures ({u:#x} * ({b:#x} - 1) - 1) % {n:#x} == 0")
    out.append(f"    ensures ({w} * (2 * {p:#x})) * ({w} * (2 * {p:#x})) > {n:#x}")
    out.append("  {\n  }\n")
    ranges = [(js[0], js[-1] + 1) for js in chunks(list(range(1, w)), DIVISORS)] or [(1, 1)]
    for k, (j, end) in enumerate(ranges):
        assert all(n % (i * 2 * p + 1) for i in range(j, end))
        out.append(f"  lemma {name}Divisors{k}()")
        out.append(f"    ensures NoneDivides({n:#x}, 2 * {p:#x}, {j}, {end})")
        out.append("  {\n  }\n")
    out.append(f"  lemma {name}IsPrime()")
    out.append(f"    ensures Prime({n:#x})")
    out.append("  {")
    out.append(f"    {below}IsPrime();")
    out.append(f"    {last}();")
    out.append(f"    {name}Inverse();")
    for k, (j, end) in enumerate(ranges):
        out.append(f"    {name}Divisors{k}();")
        if k:
            out.append(f"    JoinRanges({n:#x}, 2 * {p:#x}, 1, {j}, {end});")
    out.append(f"    Pocklington({n:#x}, {p:#x}, {b:#x}, {u:#x}, {w});")
    out.append("  }\n")


def prime_tables():
    out = [
        "/** The modulus of the signer's field is prime: each number below is, because the one before it is and is the order of an",
        "    element modulo it. Written by tables.py. */",
        "module PrimeTables {",
        "  import opened NumberTheory",
        "  import opened Primality\n",
        "  lemma ElevenIsPrime()",
        "    ensures Prime(11)",
        "  {",
        "    forall k | 1 < k < 11 ensures 11 % k != 0 {",
        "      if k == 2 {} else if k == 3 {} else if k == 4 {} else if k == 5 {} else if k == 6 {}",
        "      else if k == 7 {} else if k == 8 {} else if k == 9 {} else {}",
        "    }",
        "  }\n",
    ]
    pairs = list(zip(CHAIN, CHAIN[1:]))
    for (name, n), (below, p) in reversed(pairs):
        prime(out, name, n, below, p)
    out[-1] = out[-1].rstrip("\n")
    return out + ["}"]


def add(p, r):
    t = D * p[0] * p[1] * r[0] * r[1] % Q
    x = (p[0] * r[1] + r[0] * p[1]) * pow(1 + t, -1, Q) % Q
    y = (p[1] * r[1] + p[0] * r[0]) * pow(1 - t, -1, Q) % Q
    return x, y


def base_point_table():
    k = D * BASE[0] * BASE[1] % Q
    head = f"{Q:#x},\n      {k:#x},\n      {BASE[0]:#x},\n      {BASE[1]:#x},\n      "
    out = [
        "/** The order of the signer's base point divides l. Written by tables.py. */",
        "module BasePointTable {",
        "  import opened PointTables\n",
        "  /** Walks and Walked for the signer's modulus, curve constant and base point. */",
        "  ghost predicate Leads(e: int, x: int, y: int, w: Walk, e': int, x': int, y': int) {",
        f"    Walks({head}e, x, y, w, e', x', y')",
        "  }\n",
        "  ghost predicate At(e: int, x: int, y: int) {",
        f"    Walked({head}e, x, y)",
        "  }\n",
        "  lemma Start()",
        f"    ensures At(1, {BASE[0]:#x}, {BASE[1]:#x})",
        "  {",
        f"    assert Walks({head}1, {BASE[0]:#x}, {BASE[1]:#x}, Arrived, 1, {BASE[0]:#x}, {BASE[1]:#x});",
        "  }\n",
    ]
    steps = []
    for bit in f"{ORDER:b}"[1:]:
        steps.append("Twice")
        if bit == "1":
            steps.append("Plus")
    e, p, before = 1, BASE, "Start"
    for k, windows in enumerate(chunks(chunks(steps, STEPS), WINDOWS)):
        body = [f"    {before}();"]
        for i, group in enumerate(windows):
            table, start, rows = f"Table{k * WINDOWS + i}", f"{e:#x}, {p[0]:#x}, {p[1]:#x}", []
            for step in group:
                e, p = (2 * e, add(p, p)) if step == "Twice" else (e + 1, add(BASE, p))
                rows.append(f"{step}({p[0]:#x},\n        {p[1]:#x},")
            end = f"{e:#x}, {p[0]:#x}, {p[1]:#x}"
            out.append(f"  lemma {table}() returns (w: Walk)")
            out.append(f"    ensures Leads({start}, w, {end})")
            out.append("  {")
            out.append("    w := " + "\n      ".join(rows) + " Arrived" + ")" * len(rows) + ";")
            out.append("  }\n")
            body.append(f"    var w{i} := {table}();")
            body.append(f"    WalkedOn({head}{start}, w{i}, {end});")
        out.append(f"  lemma Multiple{k}()")
        out.append(f"    ensures At({end})")
        out += ["  {"] + body + ["  }\n"]
        before = f"Multiple{k}"
    assert (e, p) == (ORDER, (0, 1))
    out.append("  /** Doubling and adding along the bits of l leads from the base point to the identity. */")
    out.append("  lemma OrderReached()")
    out.append(f"    ensures Walked({head}{end})")
    out.append("  {")
    out.append(f"    {before}();")
    out.append("  }")
    return out + ["}"]


def main():
    here = pathlib.Path(__file__).parent
    (here / "table_primes.dfy").write_text("\n".join(prime_tables()) + "\n")
    (here / "table_base_point.dfy").write_text("\n".join(base_point_table()) + "\n")


if __name__ == "__main__":
    main()
