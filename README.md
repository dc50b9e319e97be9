# Matrix3x2F in Dafny

This project models `Matrix3x2F` of Padutronics.Mathematics.Matrices: a sealed class that wraps a
3-row by 2-column buffer of doubles. It covers the shape-checked constructor (rows first, then
columns, each failure carrying the offending count), the parameterless constructor (an all-zero
buffer), the identity values, the six named accessors `M11`…`M32` with their setters,
and `Clone`.

The class becomes the Dafny class `Matrices.Matrix3x2F`. Its `readonly double[,] values` field is a
`const values: array2<real>`. `Valid()` is the 3 x 2 shape invariant, and it can never change
afterwards because the field is constant and array dimensions are fixed. `Elements()` is the
abstract value: the six cells in row-major order, defined by the general `RowMajor` flattening
of a two-dimensional array. The accessors are specified against that layout. Each setter states
its whole new state as `old(Elements())` with one position replaced.

A C# constructor can throw, but a Dafny constructor cannot fail. So the validated constructor is
the static method `Create`, which returns `Result<Matrix3x2F, ShapeError>`. Its two error cases
are `WrongRows(rows)` and `WrongColumns(columns)`. The constructor `Adopt` is the assignment that
runs once both checks have passed.

The validated constructor stores the caller's array itself, with no defensive copy
(Matrix3x2F.cs line 35). `Create` therefore ensures that the instance's buffer *is* the argument;
`CallerWriteShowsThrough` shows the consequence: a later write to the caller's array is visible
through `M11`.

## Model

| member | source | states |
|---|---|---|
| `Matrices.RowMajor` | Source/Padutronics.Mathematics.Matrices/Matrix3x2F.cs:14 | flattening the first n rows of a two-dimensional buffer gives n * columns values |
| `Matrices.RowMajorAt` | Source/Padutronics.Mathematics.Matrices/Matrix3x2F.cs:14 | in the row-major layout, cell (i, j) is at position i * columns + j, for every cell of any buffer |
| `Matrices.Matrix3x2F.Elements` | Source/Padutronics.Mathematics.Matrices/Matrix3x2F.cs:14 | a valid instance has exactly Rows * Columns = 6 elements |
| `Matrices.Matrix3x2F.ElementsAreCells` | Source/Padutronics.Mathematics.Matrices/Matrix3x2F.cs:43-77 | the six elements are the cells (0,0), (0,1), (1,0), (1,1), (2,0), (2,1), in that order |
| `Matrices.Matrix3x2F.constructor` | Source/Padutronics.Mathematics.Matrices/Matrix3x2F.cs:16-19 | the parameterless constructor never fails and yields a fresh 3 x 2 buffer whose six cells are all zero |
| `Matrices.Matrix3x2F.Adopt` | Source/Padutronics.Mathematics.Matrices/Matrix3x2F.cs:35 | once the shape is known to be 3 x 2, the instance takes the given buffer itself, not a copy |
| `Matrices.Matrix3x2F.Create` | Source/Padutronics.Mathematics.Matrices/Matrix3x2F.cs:21-36 | rows != 3 fails with the actual row count, whatever the columns; 3 rows with columns != 2 fails with the actual column count; succeeds exactly when the shape is 3 x 2, and then returns a new instance whose buffer is the caller's array |
| `Matrices.Matrix3x2F.Identity` | Source/Padutronics.Mathematics.Matrices/Matrix3x2F.cs:38 | the identity instance holds {{1, 0}, {0, 1}, {0, 0}}: M11 = 1, M12 = 0, M21 = 0, M22 = 1, M31 = 0, M32 = 0 |
| `Matrices.Matrix3x2F.M11` | Source/Padutronics.Mathematics.Matrices/Matrix3x2F.cs:45 | reads row-major position 0, the cell (0, 0); reads only the buffer and changes nothing |
| `Matrices.Matrix3x2F.M12` | Source/Padutronics.Mathematics.Matrices/Matrix3x2F.cs:51 | reads row-major position 1, the cell (0, 1); changes nothing |
| `Matrices.Matrix3x2F.M21` | Source/Padutronics.Mathematics.Matrices/Matrix3x2F.cs:57 | reads row-major position 2, the cell (1, 0); changes nothing |
| `Matrices.Matrix3x2F.M22` | Source/Padutronics.Mathematics.Matrices/Matrix3x2F.cs:63 | reads row-major position 3, the cell (1, 1); changes nothing |
| `Matrices.Matrix3x2F.M31` | Source/Padutronics.Mathematics.Matrices/Matrix3x2F.cs:69 | reads row-major position 4, the cell (2, 0); changes nothing |
| `Matrices.Matrix3x2F.M32` | Source/Padutronics.Mathematics.Matrices/Matrix3x2F.cs:75 | reads row-major position 5, the cell (2, 1); changes nothing |
| `Matrices.Matrix3x2F.SetM11` | Source/Padutronics.Mathematics.Matrices/Matrix3x2F.cs:46 | writes cell (0, 0) only; the other five cells and the shape are unchanged |
| `Matrices.Matrix3x2F.SetM12` | Source/Padutronics.Mathematics.Matrices/Matrix3x2F.cs:52 | writes cell (0, 1) only; the other five cells and the shape are unchanged |
| `Matrices.Matrix3x2F.SetM21` | Source/Padutronics.Mathematics.Matrices/Matrix3x2F.cs:58 | writes cell (1, 0) only; the other five cells and the shape are unchanged |
| `Matrices.Matrix3x2F.SetM22` | Source/Padutronics.Mathematics.Matrices/Matrix3x2F.cs:64 | writes cell (1, 1) only; the other five cells and the shape are unchanged |
| `Matrices.Matrix3x2F.SetM31` | Source/Padutronics.Mathematics.Matrices/Matrix3x2F.cs:70 | writes cell (2, 0) only; the other five cells and the shape are unchanged |
| `Matrices.Matrix3x2F.SetM32` | Source/Padutronics.Mathematics.Matrices/Matrix3x2F.cs:76 | writes cell (2, 1) only; the other five cells and the shape are unchanged |
| `Matrices.Matrix3x2F.Clone` | Source/Padutronics.Mathematics.Matrices/Matrix3x2F.cs:79-84 | never fails; returns a new instance over a freshly allocated buffer, distinct from the original's, with all six cells equal; the original is not modified |
| `Matrices.AccessorsAreElements` | Source/Padutronics.Mathematics.Matrices/Matrix3x2F.cs:43-77 | the six accessors, in declaration order, are exactly the row-major elements, so together they cover every cell once |
| `Matrices.CloneIsIndependent` | Source/Padutronics.Mathematics.Matrices/Matrix3x2F.cs:79-84 | writing any cell of a clone's buffer changes that one position of the clone and leaves the original untouched |
| `Matrices.CallerWriteShowsThrough` | Source/Padutronics.Mathematics.Matrices/Matrix3x2F.cs:21-35 | after a successful validated construction, a write to the caller's array shows through the instance's M11 |

## Left out

- Identity (`Matrices.Matrix3x2F.Identity`): allocates a new instance on each call. The source creates one instance in a static property initializer and returns it on every access. Dafny has no static mutable state, so only the identity's values are modelled.
- Exceptions: the two `ArgumentException`s become the `WrongRows` and `WrongColumns` error values. Their message text and parameter name are not modelled.
- The debugger display string (Matrix3x2F.cs lines 8 and 40-41) is debugger-only text formatting.
- The non-generic `ICloneable.Clone` (lines 86-89) only forwards to `Clone` and boxes the result.
- Double-precision semantics: elements are `real`. The class does no arithmetic, and it only reads and writes cells.
- The external `Padutronics.Cloning` interface and the `Padutronics.Diagnostics.Debugging` attribute constants are not part of this model.
- Evaluation order of `GetLength(1)`: the source reads the column count only after the row check passes. Reading a dimension has no effect, so the model only keeps the order in which the two errors are reported.
- SetM11 … SetM32 (`Matrices.Matrix3x2F.SetM11` to `SetM32`): the setters are private in the source (lines 46, 52, 58, 64, 70, 76), so no outside caller can write a cell of any instance, including the shared identity. Dafny members here have no visibility, so any client of the model can call them.
- Null buffer: `Create` takes a non-null `array2<real>`, so a null argument is not modelled. In the source, `values.GetLength(dimension: 0)` (line 23) on a null array throws a `NullReferenceException`.
