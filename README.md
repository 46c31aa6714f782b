# Trapped-ion (IonQ-style) native gate catalog

This project models the native-gate catalog that netqasm defines for a
trapped-ion coprocessor, in `netqasm/lang/instr/trapped_ion_ionq.py`. It covers
three parts and proves properties about each:

- **Instruction catalog** (`catalog.dfy`, module `Catalog`). It has six
  instruction kinds: `init_all` (42), `meas_all` (43), `rot_x` (44), `rot_y`
  (45), `rot_z` (46) and `ms` (47). Each kind has an opcode id, a mnemonic and
  the operand shape it is built on. The shapes are: no operand;
  register + address; register + two immediates; two registers + two
  immediates.
- **Angle quantization** (`angle.dfy`, module `Angle`). Every rotation and the
  MS gate read their angle as `num * pi / 2**denom`. The model keeps this angle
  as its exact coefficient of pi, a `real` equal to `num / 2^denom`, so no
  value is ever rounded.
- **Matrices** (`rotation.dfy`, module `Rotation`; `ms.dfy`, module
  `MolmerSorensen`; `complex.dfy`, module `Complex`).
  - `rot_x`, `rot_y` and `rot_z` pick a unit basis axis and pass it, with the
    quantized angle, to the rotation-matrix primitive. That primitive is not
    part of this model, so a call to it is kept as a symbolic value.
  - The MS instruction is a class with four positional slots, `reg0`, `reg1`,
    `imm0` and `imm1`. Getters and setters map the named roles onto these
    slots.
  - The MS `to_matrix` is modelled exactly over complex numbers written as
    pairs of reals. Cosine and sine are parameters `cosPi`/`sinPi` of the
    coefficient of pi. A lemma that needs a trigonometric identity, such as the
    Pythagorean identity or angle addition, takes it as a precondition.

Two behaviours of the code are worth stating up front:

- A negative `angle_denom` is not rejected. In Python, `2**denom` with a
  negative `denom` evaluates to `1/2^|denom|`, so the angle becomes
  `num * 2^|denom| * pi`. `Angle.Coefficient` models exactly that.
- The line-88 defect is in the getter. The `angle_denom` setter writes `imm1`,
  but reading `angle_denom` goes through angle_num's getter and returns `imm0`
  (see Findings).

## Model

| member | source | states |
|---|---|---|
| `Catalog.Id` | netqasm/lang/instr/trapped_ion_ionq.py:13-57 | every opcode id lies in the catalog's reserved range 42..47 |
| `Catalog.KindOfId` | netqasm/lang/instr/trapped_ion_ionq.py:13-57 | reading the id table backwards: an id in 42..47 finds the kind that owns it, and any other id finds none |
| `Catalog.KindOfIdRoundTrip` | netqasm/lang/instr/trapped_ion_ionq.py:13-57 | looking up a kind's own id returns that kind |
| `Catalog.IdsDistinct` | netqasm/lang/instr/trapped_ion_ionq.py:13-57 | two kinds have the same id exactly when they are the same kind |
| `Catalog.MnemonicsDistinct` | netqasm/lang/instr/trapped_ion_ionq.py:14-58 | the mnemonics `init_all`, `meas_all`, `rot_x`, `rot_y`, `rot_z`, `ms` given by `Catalog.Mnemonic`: two kinds have the same mnemonic exactly when they are the same kind |
| `Catalog.KindsInIdOrder` | netqasm/lang/instr/trapped_ion_ionq.py:11-58 | the catalog lists all six kinds, and the i-th kind has id 42 + i |
| `Catalog.ShapeOf` | netqasm/lang/instr/trapped_ion_ionq.py:12-56 | a kind is built on the register + two immediates shape exactly when it is a rotation |
| `Catalog.ShapeArity` | netqasm/lang/instr/trapped_ion_ionq.py:12-56 | operand counts per kind: init_all 0, meas_all 2 (one of them an address), rotations 3, ms 4 (two registers, two immediates) |
| `Angle.Pow2` | netqasm/lang/instr/trapped_ion_ionq.py:29 | 2**denom is at least 1 |
| `Angle.Coefficient` | netqasm/lang/instr/trapped_ion_ionq.py:29 | the coefficient times 2^denom gives back num (divided by 2^-denom when denom is negative); it is zero exactly when num is zero, and positive exactly when num is positive |
| `Angle.CoefficientOfZero` | netqasm/lang/instr/trapped_ion_ionq.py:40 | a zero numerator gives the zero angle for every denominator |
| `Angle.CoefficientAdd` | netqasm/lang/instr/trapped_ion_ionq.py:51 | with the same denominator, angles add like their numerators |
| `Angle.CoefficientDouble` | netqasm/lang/instr/trapped_ion_ionq.py:29 | (2n, d+1) denotes the same angle as (n, d) |
| `Angle.CoefficientScale` | netqasm/lang/instr/trapped_ion_ionq.py:29 | (n * 2^k, d+k) denotes the same angle as (n, d) for every k |
| `Angle.CoefficientInjective` | netqasm/lang/instr/trapped_ion_ionq.py:40 | with the same denominator, two encodings denote the same angle exactly when their numerators are equal |
| `Angle.SameAngle` | netqasm/lang/instr/trapped_ion_ionq.py:51 | for d1 <= d2, (n1, d1) and (n2, d2) denote the same angle exactly when n2 = n1 * 2^(d2-d1) |
| `Rotation.AxisOf` | netqasm/lang/instr/trapped_ion_ionq.py:28-50 | each rotation kind selects a unit basis axis: x for rot_x, y for rot_y, z for rot_z |
| `Rotation.RotationToMatrix` | netqasm/lang/instr/trapped_ion_ionq.py:27-52 | the primitive gets the kind's basis axis and the angle num / 2^denom (num * 2^-denom for a negative denom), which is zero exactly when num is zero and positive exactly when num is positive |
| `Rotation.AxesDistinct` | netqasm/lang/instr/trapped_ion_ionq.py:28-50 | two rotation kinds share an axis exactly when they are the same kind |
| `Rotation.RotationDependsOnlyOnAngle` | netqasm/lang/instr/trapped_ion_ionq.py:38-41 | for a fixed kind, two immediate pairs give the same primitive call exactly when they encode the same angle |
| `Rotation.RotationZeroNumerator` | netqasm/lang/instr/trapped_ion_ionq.py:49-52 | a zero numerator passes the zero angle on the kind's axis, whatever the denominator |
| `Rotation.RotationCompose` | netqasm/lang/instr/trapped_ion_ionq.py:27-30 | with the same denominator, the calls for (n1, d) and (n2, d) share the axis, and their angles add up to the angle of (n1 + n2, d) |
| `MolmerSorensen.MSInstruction.constructor` | netqasm/lang/instr/trapped_ion_ionq.py:55-58 | a new MS instruction holds the given registers and immediates in reg0, reg1, imm0, imm1 |
| `MolmerSorensen.MSInstruction.AngleDenom` | netqasm/lang/instr/trapped_ion_ionq.py:84-86 | the declared angle_denom getter agrees with the live property exactly when imm0 and imm1 hold the same value; its read-after-write is stated by SetAngleDenom |
| `MolmerSorensen.MSInstruction.AngleDenomAsWritten` | netqasm/lang/instr/trapped_ion_ionq.py:76-88 | the live angle_denom getter is angle_num's getter: it always returns the same value as angle_num |
| `MolmerSorensen.MSInstruction.Angle` | netqasm/lang/instr/trapped_ion_ionq.py:93 | the intended angle coefficient times 2^imm1 gives back imm0 (divided by 2^-imm1 when imm1 is negative), and it is zero exactly when imm0 is zero |
| `MolmerSorensen.MSInstruction.AngleAsWritten` | netqasm/lang/instr/trapped_ion_ionq.py:88-93 | the angle to_matrix computes through the live property uses imm0 as both numerator and denominator |
| `MolmerSorensen.MSInstruction.SetQReg0` | netqasm/lang/instr/trapped_ion_ionq.py:60-66 | the qreg0 getter and setter address reg0: the setter writes reg0 only, and reading qreg0 afterwards returns the value written |
| `MolmerSorensen.MSInstruction.SetQReg1` | netqasm/lang/instr/trapped_ion_ionq.py:68-74 | the qreg1 getter and setter address reg1: the setter writes reg1 only, and reading qreg1 afterwards returns the value written |
| `MolmerSorensen.MSInstruction.SetAngleNum` | netqasm/lang/instr/trapped_ion_ionq.py:76-82 | the angle_num getter and setter address imm0: the setter writes imm0 only, and reading angle_num afterwards returns the value written |
| `MolmerSorensen.MSInstruction.SetAngleDenom` | netqasm/lang/instr/trapped_ion_ionq.py:84-90 | the setter writes imm1 only. The declared getter reads back the value written. The live property reads imm0, which is unchanged |
| `MolmerSorensen.MSInstruction.ToMatrix` | netqasm/lang/instr/trapped_ion_ionq.py:92-101 | an instruction's matrix is the 4x4 MS matrix of its imm0/imm1 angle |
| `MolmerSorensen.AngleDenomRegression` | netqasm/lang/instr/trapped_ion_ionq.py:84-93 | on ms(1, 2), after setting angle_denom to 3: the declared getter returns 3, the live property returns 1, and the live angle is 1/2 instead of 1/8 |
| `MolmerSorensen.MsMatrix` | netqasm/lang/instr/trapped_ion_ionq.py:96-101 | the MS matrix is 4x4 |
| `MolmerSorensen.MsToMatrix` | netqasm/lang/instr/trapped_ion_ionq.py:92-101 | to_matrix of immediates (num, denom) is a 4x4 matrix |
| `MolmerSorensen.MsSparsity` | netqasm/lang/instr/trapped_ion_ionq.py:96-101 | the cosine term fills the diagonal. An off-diagonal entry is nonzero only at (0,3), (3,0), (1,2), (2,1), and there only when the sine is nonzero; those entries are -i*sin |
| `MolmerSorensen.MsSymmetric` | netqasm/lang/instr/trapped_ion_ionq.py:96-101 | the MS matrix equals its transpose |
| `MolmerSorensen.MsIdentityAtZero` | netqasm/lang/instr/trapped_ion_ionq.py:94-101 | with c = 1 and sn = 0 the MS matrix is the 4x4 identity |
| `MolmerSorensen.MsProductEntry` | netqasm/lang/instr/trapped_ion_ionq.py:96-101 | each entry of the product of two MS matrices is the entry of the MS matrix with the angle-addition cosine and sine terms |
| `MolmerSorensen.MsCompose` | netqasm/lang/instr/trapped_ion_ionq.py:96-101 | the product of two MS matrices is the MS matrix with cosine term c1c2 - s1s2 and sine term s1c2 + c1s2 |
| `MolmerSorensen.MsAdjoint` | netqasm/lang/instr/trapped_ion_ionq.py:94-101 | the conjugate transpose of the MS matrix is the MS matrix with the sine term negated |
| `MolmerSorensen.MsUnitary` | netqasm/lang/instr/trapped_ion_ionq.py:94-101 | the MS matrix is unitary (M-dagger M = I) exactly when c^2 + sn^2 = 1 |
| `MolmerSorensen.MsToMatrixZeroNumerator` | netqasm/lang/instr/trapped_ion_ionq.py:93-101 | given cos 0 = 1 and sin 0 = 0, a zero numerator gives the identity for every denominator |
| `MolmerSorensen.MsToMatrixUnitary` | netqasm/lang/instr/trapped_ion_ionq.py:93-101 | given the Pythagorean identity, every MS instruction's matrix is unitary |
| `MolmerSorensen.MsToMatrixCompose` | netqasm/lang/instr/trapped_ion_ionq.py:93-101 | given angle addition, the matrix of (n1, d) times the matrix of (n2, d) is the matrix of (n1 + n2, d) |

## Findings

| source | as written | input that shows it | evidently intended | confidence | as-written member | corrected member |
|---|---|---|---|---|---|---|
| netqasm/lang/instr/trapped_ion_ionq.py:88 | `angle_denom` is declared with `@angle_num.setter`, so the live property pairs angle_num's getter (reads `imm0`) with a setter that writes `imm1`; the getter at lines 84-86 is discarded, and `to_matrix` (line 93) reads the numerator twice | ms with imm0 = 1, imm1 = 2; set angle_denom = 3; reading angle_denom returns 1, and the angle becomes 1/2^1 instead of 1/2^3 | `@angle_denom.setter`: the getter and the setter both address `imm1` | high (not executed) | `MolmerSorensen.AngleDenomRegression` | `MolmerSorensen.MSInstruction.AngleDenom` |

In the model, the live getter is `MSInstruction.AngleDenomAsWritten` and the
live angle is `MSInstruction.AngleAsWritten`. The corrected getter is
`MSInstruction.AngleDenom`, which reads `imm1`; its read-after-write property
is proved in the `ensures` of `MSInstruction.SetAngleDenom`, whose write to
`imm1` is unchanged from the code. The rest of the model uses the intended
`MSInstruction.AngleDenom` and `MSInstruction.Angle`.

## Left out

- Floating-point evaluation (`np.pi`, `np.cos`, `np.sin`, numpy arrays, lines 29 and 93-95). Angles are exact coefficients of pi. Cosine and sine are parameters, and their identities are lemma preconditions. The 1e-10 tolerance has no counterpart because everything here is exact.
- `get_rotation_matrix` (lines 7, 30) is not part of this model. `Rotation.RotationToMatrix` records the axis and angle it receives. For that reason no rotation-matrix identity, unitarity or composition up to global phase is proved for the 2x2 matrices.
- The instruction base framework and operand classes (`base.*`, `core.RotationInstruction`, `Immediate`, `Register`, `Template`, lines 6 and 9) are not part of this model. Slots are plain fields: immediates are unbounded `int`, and a register is a register-file name plus an index. Immediate width limits and template (unresolved) operands are not modelled.
- The role accessors of the rotation instructions live in `core.RotationInstruction`, which is not part of this model. Rotation `to_matrix` therefore takes the two immediate values directly.
- Line 93 uses `self.angle_num` and `self.angle_denom` without `.value` and relies on unseen `Immediate` operator overloads. It is modelled with the same `.value` semantics as lines 29, 40 and 51.
- Binary and textual encoding of instructions happens outside this file. Nothing in this file detects a duplicate opcode. Each class gives `id` a fixed default value, and `Catalog.Id` models that default per kind. `Catalog.IdsDistinct` proves the six ids do not collide. Passing a different `id` to a constructor is not modelled.
- The commented-out drafts `gpi`, `gpi2`, `virt_z`, the four-immediate `ms`, `ms_p` and `zz` (lines 103-261) are not live code.
- `netqasm/sdk/tmp.py`, `tmp1.py` and `tmp2.py` are throwaway simulator scripts that use external libraries and console output.
- `MolmerSorensen.MsMatrix` and `MolmerSorensen.MsToMatrix` state only the matrix size in their own contracts. Their content is stated by `MsSparsity`, `MsSymmetric`, `MsUnitary` and the other lemmas listed above.
