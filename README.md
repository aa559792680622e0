# Elastic fields and the qlab viewer registry, in Dafny

This project models two parts of QUIP's Python layer and proves properties of the model.

## quippy's `elasticity` module
- **Voigt conversions.** These are `strain_matrix`, `stress_matrix`, `strain_vector`, `stress_vector` and `voigt_map`.
- **Elasticity matrix and tensor.** The 6x6 stiffness matrix and the 3x3x3x3 tensor are converted into each other. The conversion back checks the tensor's symmetries first. `transform_elasticity` rotates a stiffness matrix or tensor.
- **`Cij_symmetry`.** These are the tables of which stiffness constants are equal in each crystal class.
- **`atomic_strain`.** This is the Zimmerman atomic strain of each atom, summed over its neighbours.
- **`elastic_fields` for the `tetrahedric` system.**
  - It first checks its arguments and adds the result properties.
  - The first loop takes each selected atom with four neighbours, in canonical order. It builds the local frame E and skips the atom when the skip test of line 285 fires. The test is a field of the options: `AsWritten` is the test as the source writes it, which also skips the atom of a perfect lattice, and `Corrected` is the evidently intended one (see Findings). It zeroes small entries and flips an all-negative frame. It splits E into S and R by a polar decomposition, which comes in as a parameter. It saves and uses the `strain_inv_k` / `rotation_inv_k` references in `at.params`. It orients R with the `rotXYZ` permutation test. Finally it stores the strain, the symmetrised linear-elastic stress, the energy density and the sorted stress eigen data.
  - With `interpolate`, the second loop takes each selected oxygen atom. It stores the mean strain and stress of the atom's neighbours.
- **`AtomResolvedStressField`.** This covers the constructor, `get_stresses` (the stress columns assembled into one symmetric 3x3 matrix per atom) and `get_stress` (their sum).

Each loop of the source is a `method` with loop invariants. Each method is proved equal to a function, and the properties are lemmas about that function.
- The in-place steps of `get_stresses` work on an `array` of per-atom matrices.
- The two loops of `elastic_fields` are proved equal to the functional runs that the lemmas describe (`FieldsLoop`).

## qlab's viewer registry
- **The registry.** The module-level `_viewers` dictionary and `_current_viewer` become the fields of a class `Registry`. Its methods are `QuippyViewer.__init__`, `_close_hook`, `show`, `gcv`, `scv` and `iterviewers`.
- **`find_viewer`.** The model derives the viewer name from the source and runs the unique-name loop `'%s_%d' % (name, n)`.
- **`set_cutoffs`.** This loop visits each unordered pair of species once and computes its cutoff.

## Numerics and parameters
Numerical linear algebra and a few other inputs come in as parameters:
- `np.linalg.eig`, the polar decomposition (`eig`, `sqrt`, `D**-0.5`) and `np.linalg.inv` are the `Numerics` parameter;
- the conversion from bond length to lattice constant is `fromBondLength`;
- `bond_length` and the atoms' cutoff settings are in `Cutoffs.Settings`.

The model uses mathematical reals, not floating point.

## Model

| member | source | states |
|---|---|---|
| Voigt.VoigtMap | quippy/quippy/elasticity.py:541-547 | Voigt index p names a diagonal pair (i, i) exactly when p <= 3 |
| Voigt.VoigtMapBijective | quippy/quippy/elasticity.py:541-547 | the Voigt map and the symmetric pair-to-index map are inverse to each other |
| Voigt.StrainMatrix | quippy/quippy/elasticity.py:34-41 | the strain matrix of any vector is symmetric |
| Voigt.StrainMatrixAt | quippy/quippy/elasticity.py:34-41 | the entry at Voigt position p is 1 + e_p on the diagonal and e_p / 2 off it, the same on both sides |
| Voigt.StressMatrix | quippy/quippy/elasticity.py:43-50 | the stress matrix of any vector is symmetric |
| Voigt.StressMatrixAt | quippy/quippy/elasticity.py:43-50 | the entry at Voigt position p, and at its mirror, is s_p |
| Voigt.StrainVectorAt | quippy/quippy/elasticity.py:52-62 | diagonal components are m_pp - 1; shear components are twice the upper entry |
| Voigt.StressVectorAt | quippy/quippy/elasticity.py:64-73 | component p is the upper-triangle entry at Voigt position p |
| Voigt.StrainVectorOfMatrix | quippy/quippy/elasticity.py:34-62 | strain_vector(strain_matrix(v)) == v |
| Voigt.StrainMatrixOfVector | quippy/quippy/elasticity.py:34-62 | strain_matrix(strain_vector(m)) == m for every symmetric m |
| Voigt.StressVectorOfMatrix | quippy/quippy/elasticity.py:43-73 | stress_vector(stress_matrix(v)) == v |
| Voigt.StressMatrixOfVector | quippy/quippy/elasticity.py:43-73 | stress_matrix(stress_vector(m)) == m for every symmetric m |
| Voigt.ZeroStrainIsIdentity | quippy/quippy/elasticity.py:34-41 | the strain matrix is the identity exactly when the strain vector is zero |
| Voigt.MatVec6 | quippy/quippy/elasticity.py:398 | `np.dot(cij, v)`: component p is the dot product of row p of C with v |
| ElasticTensor.Expand | quippy/quippy/elasticity.py:549-560 | every tensor entry is the matrix entry written last to it in the p, q loop order |
| ElasticTensor.FillStep | quippy/quippy/elasticity.py:554-558 | one (p, q) turn overwrites exactly the entries of its five assignments |
| ElasticTensor.FilledAll | quippy/quippy/elasticity.py:554-558 | after all 36 turns every entry holds its expanded value |
| ElasticTensor.AssignFive | quippy/quippy/elasticity.py:558 | the chained assignment sets the entries written by (p, q) to C[p,q] and keeps the others |
| ElasticTensor.MatrixToTensor | quippy/quippy/elasticity.py:549-560 | the loop computes Expand(C) |
| ElasticTensor.ExpandSymmetric | quippy/quippy/elasticity.py:549-560 | for a symmetric C, entry ijkl is C at the Voigt indices of (i,j) and (k,l); the tensor has the minor and major symmetries |
| ElasticTensor.ExpandTakesLowerOnDiagonalBlock | quippy/quippy/elasticity.py:554-558 | for c1122 and c2211 the later assignment wins: both hold C[2,1] |
| ElasticTensor.ChecksAreTwoSided | quippy/quippy/elasticity.py:567-575 | once all one-sided checks pass, each symmetry holds within tol from both sides |
| ElasticTensor.SymmetricPassesChecks | quippy/quippy/elasticity.py:567-575 | a fully symmetric tensor passes every assertion |
| ElasticTensor.Compress | quippy/quippy/elasticity.py:577-582 | C[p,q] is the tensor entry at the Voigt pairs of p and q |
| ElasticTensor.CheckSymmetries | quippy/quippy/elasticity.py:567-575 | the assertion loop succeeds exactly when all 4 x 81 checks pass |
| ElasticTensor.CompressLoop | quippy/quippy/elasticity.py:577-584 | the loop computes Compress(t) |
| ElasticTensor.TensorToMatrix | quippy/quippy/elasticity.py:562-584 | the result is AssertionError when a check fails, otherwise the compressed matrix |
| ElasticTensor.MatrixTensorRoundTrip | quippy/quippy/elasticity.py:549-584 | for a symmetric C, the expansion passes the checks and compresses back to C |
| ElasticTensor.TensorMatrixRoundTrip | quippy/quippy/elasticity.py:549-584 | a fully symmetric tensor is recovered from its compressed form |
| ElasticTensor.Rotate | quippy/quippy/elasticity.py:602-611 | entry ijkl is the sum over pqrs of R_ip R_jq R_kr R_ls c_pqrs |
| ElasticTensor.AccumulateEntry | quippy/quippy/elasticity.py:607-611 | the four inner loops add up the rotated entry in loop order |
| ElasticTensor.RotateTensor | quippy/quippy/elasticity.py:602-611 | the eight nested loops compute Rotate(c, R) |
| ElasticTensor.RotatePreservesSymmetry | quippy/quippy/elasticity.py:602-611 | rotating a fully symmetric tensor gives a fully symmetric tensor |
| ElasticTensor.RotateIdentity | quippy/quippy/elasticity.py:602-611 | rotating by the identity changes nothing |
| ElasticTensor.CompressSymmetric | quippy/quippy/elasticity.py:577-584 | the compressed form of a fully symmetric tensor is a symmetric matrix |
| ElasticTensor.TransformElasticity | quippy/quippy/elasticity.py:586-616 | the method computes Transformed(c, R) |
| ElasticTensor.TransformedShapes | quippy/quippy/elasticity.py:593-600 | ValueError exactly for shapes other than 6x6 and 3x3x3x3; otherwise the shape is kept |
| ElasticTensor.TransformedSymmetric | quippy/quippy/elasticity.py:586-616 | a symmetric 6x6 input passes the checks and gives a symmetric matrix; a symmetric tensor stays symmetric |
| ElasticTensor.TransformedIdentity | quippy/quippy/elasticity.py:586-616 | transforming any tensor, or a symmetric 6x6 matrix, by the identity returns it |
| CijSymmetry.LookupOfKey | quippy/quippy/elasticity.py:77-133 | each of the eight class names maps to its table |
| CijSymmetry.LookupOnlyKeys | quippy/quippy/elasticity.py:77-133 | a name that is found belongs to one of the eight classes |
| CijSymmetry.TablesSymmetric | quippy/quippy/elasticity.py:77-133 | every table except trigonal_high is a symmetric pattern |
| CijSymmetry.TrigonalHighAsymmetric | quippy/quippy/elasticity.py:85-90 | trigonal_high has -9 at (2,5) and (4,2) but 0 at (5,2) and (2,4) |
| AtomicStrain.AtomStrain | quippy/quippy/elasticity.py:150-162 | entry ij is the sum over neighbours of d_i d_j / r0^2, divided by crystal_factor |
| AtomicStrain.Contribution | quippy/quippy/elasticity.py:160 | one neighbour's term d_i d_j / r0^2 |
| AtomicStrain.AddNeighbour | quippy/quippy/elasticity.py:158-160 | the i, j loops add one neighbour's term to each of the nine entries |
| AtomicStrain.AccumulateAtom | quippy/quippy/elasticity.py:157-160 | the neighbour loop leaves the sum of all neighbour terms |
| AtomicStrain.AtomicStrain | quippy/quippy/elasticity.py:150-162 | one matrix per atom, each equal to AtomStrain of its neighbour list |
| AtomicStrain.StrainSumSymmetric | quippy/quippy/elasticity.py:157-160 | the sum for (i, j) equals the sum for (j, i) |
| AtomicStrain.AtomStrainSymmetric | quippy/quippy/elasticity.py:150-162 | each atomic strain is a symmetric matrix |
| AtomicStrain.NoNeighboursNoStrain | quippy/quippy/elasticity.py:154-162 | an atom without neighbours has zero strain |
| AtomicStrain.StrainSumAppend | quippy/quippy/elasticity.py:157-160 | the sum over two neighbour lists joined is the sum of their sums |
| ElasticFields.Validate | quippy/quippy/elasticity.py:222-232 | ValueError unless exactly one of a and bond_length is given, and `primitive_index` exists when saving or using a reference; otherwise a, or a derived from bond_length |
| ElasticFields.SaveFirst | quippy/quippy/elasticity.py:363-366 | the key is added with the value only if it was absent; existing entries are kept |
| ElasticFields.Lookup | quippy/quippy/elasticity.py:368-369 | the stored value when the key is present, otherwise KeyError |
| ElasticFields.SaveThenLookup | quippy/quippy/elasticity.py:363-369 | after saving, the lookup succeeds; saving again changes nothing; the first save's value is found |
| ElasticFields.Symmetrised | quippy/quippy/elasticity.py:404 | entry ij is (m_ij + m_ji) / 2 |
| ElasticFields.SymmetrisedIsSymmetric | quippy/quippy/elasticity.py:404 | the result is symmetric, and a symmetric matrix is unchanged |
| ElasticFields.SampleStressIsTheSymmetrisedTensor | quippy/quippy/elasticity.py:394-405 | the stored stress is the Voigt form of sym(R . stress_matrix(C . strain_vector(R^T S R)) . R^T) |
| ElasticFields.EnergyDensityIsContraction | quippy/quippy/elasticity.py:407 | for symmetric S and sigma, 0.5 * strain_vector(S) . stress_vector(sigma) is half the full contraction of S - I with sigma over all nine index pairs |
| ElasticFields.CrystalStressVoigt | quippy/quippy/elasticity.py:397-398 | the crystal-frame stress stress_matrix(C . strain_vector(R^T S R)) is symmetric, and its Voigt form is C times that strain vector |
| ElasticFields.AtomFrame | quippy/quippy/elasticity.py:267-286 | the atom is passed over exactly when the chosen skip test fires on the frame built from its canonically ordered neighbours |
| ElasticFields.IdealRawFrame | quippy/quippy/elasticity.py:267-283 | without `primitive_index` and with a = 4, the ideal tetrahedron's frame has columns -e3, -e1, -e2 |
| ElasticFields.IdealAtomSkips | quippy/quippy/elasticity.py:285-286 | the skip test as written fires on that frame; the corrected one does not |
| ElasticFields.IdealAtomFrame | quippy/quippy/elasticity.py:267-286 | the ideal atom has no frame under the test as written, and has one under the corrected test |
| ElasticFields.SumVecAt | quippy/quippy/elasticity.py:420-422 | component p of the vector sum is the sum of the components p |
| ElasticFields.MeanOfCopies | quippy/quippy/elasticity.py:420-422 | the mean of copies of one vector is that vector |
| ElasticFields.MeanVecAt | quippy/quippy/elasticity.py:420-422 | component p of the mean is the sum of the components p over the count |
| StressEig.EigOrderIsPermutation | quippy/quippy/elasticity.py:215 | the order is a permutation of 1, 2, 3 |
| StressEig.EigOrderDescending | quippy/quippy/elasticity.py:215 | eigenvalues come in descending order; equal ones in descending index, as `sorted(..., reverse=True)` on pairs gives |
| StressEig.StressEigenSorted | quippy/quippy/elasticity.py:211-220 | the stored eigenvalues descend, and each eigenvector column travels with its eigenvalue |
| Sorting.Insert | quippy/quippy/elasticity.py:269 | inserting into an ascending list keeps it ascending and adds exactly the element |
| Sorting.Sort | quippy/quippy/elasticity.py:269 | the result is ascending in (key, index) and a permutation of the input |
| Sorting.SortDescending | quippy/quippy/elasticity.py:215 | the result is descending and a permutation of the input |
| Sorting.AscendingUnique | quippy/quippy/elasticity.py:269 | two ascending permutations of one list are equal |
| Sorting.SortIsTheAscendingPermutation | quippy/quippy/elasticity.py:269 | any ascending permutation of the input is Sort's result |
| Sorting.PermutedTaggedEntries | quippy/quippy/elasticity.py:269 | each pair of a permuted list of (key, index) pairs carries a valid index and that index's key |
| Sorting.PermutedTagsDistinct | quippy/quippy/elasticity.py:269 | no index occurs twice in a permuted list of (key, index) pairs |
| Sorting.DescendingTaggedPair | quippy/quippy/elasticity.py:215 | in a descending permutation, earlier pairs have larger keys, or equal keys and larger indices |
| Neighbours.NeighbourKeys | quippy/quippy/elasticity.py:268-269 | the key of each neighbour is the `primitive_index` of its atom |
| Neighbours.CanonicalOrder | quippy/quippy/elasticity.py:267-271 | four neighbour positions; without `primitive_index` they are 1, 2, 3, 4, the list order |
| Neighbours.CanonicalOrderIsPermutation | quippy/quippy/elasticity.py:267-271 | the order is a permutation of 1..4, with or without `primitive_index` |
| Neighbours.CanonicalOrderSorted | quippy/quippy/elasticity.py:268-269 | with `primitive_index`, earlier neighbours have smaller primitive index, ties broken by list position |
| Neighbours.IdealFrame | quippy/quippy/elasticity.py:271-283 | the ideal tetrahedron with a = 4 gives the frame with columns -e3, -e1, -e2 |
| Frame.FrameMatrixAt | quippy/quippy/elasticity.py:281-283 | the columns are (n1+n2-n3)/a, (n2+n3-n1)/a and (n3+n1-n2)/a |
| Frame.FrameMatrixColumns | quippy/quippy/elasticity.py:281-283 | column 1 of E is the frame column of (n1, n2, n3), column 2 that of (n2, n3, n1) and column 3 that of (n3, n1, n2) |
| Frame.FrameRecoversSeparations | quippy/quippy/elasticity.py:274-283 | adjacent columns of E add up to 2 n2 / a, 2 n3 / a and 2 n1 / a |
| Frame.SkipAsWrittenDiscardsIdealFrame | quippy/quippy/elasticity.py:285-286 | the skip test as written discards the ideal diamond frame; the corrected test keeps it |
| Frame.SkipRulesCompared | quippy/quippy/elasticity.py:285-286 | the written test skips every frame the corrected one skips; they agree when column 3 has no zero |
| Frame.ZeroSmall | quippy/quippy/elasticity.py:345 | entries below 1e-6 in absolute value become zero; others are kept |
| Frame.CleanFrame | quippy/quippy/elasticity.py:344-347 | no entry is left below 1e-6 other than zero; magnitudes are those of ZeroSmall; the result is never all negative |
| Frame.CleanFrameIdempotent | quippy/quippy/elasticity.py:344-347 | cleaning a cleaned frame changes nothing |
| Frame.CleanFrameSign | quippy/quippy/elasticity.py:344-347 | the result is ZeroSmall(E) or its negation, negated exactly when ZeroSmall(E) is all negative |
| Orientation.RotXYZ | quippy/quippy/elasticity.py:244-247 | entries (1,2), (2,3) and (3,1) are 1 |
| Orientation.RotXYZTIsTranspose | quippy/quippy/elasticity.py:381 | `rotXYZ.T` is the transpose of rotXYZ |
| Orientation.RotXYZPermutesRows | quippy/quippy/elasticity.py:379 | rotXYZ . R moves row i+1 of R to row i |
| Orientation.RotXYZTPermutesRows | quippy/quippy/elasticity.py:381 | rotXYZ.T . R moves row i-1 of R to row i |
| Orientation.RotXYZOrthogonal | quippy/quippy/elasticity.py:244-247 | rotXYZ times its transpose is the identity, in both orders |
| Orientation.FirstColumnOfRtEIsColumn | quippy/quippy/elasticity.py:376-377 | the vector the permutation test reads is column 1 of `RtE = np.dot(R.T, E)`: its entry k is entry (k, 1) of R^T . E |
| Orientation.XAxisIsStrictMaximum | quippy/quippy/elasticity.py:377-381 | a row other than 1 is chosen only when its entry is strictly the largest; row 1 otherwise |
| Orientation.OrientKeepsGram | quippy/quippy/elasticity.py:376-381 | the oriented R is R, rotXYZ . R or rotXYZ.T . R, with the same R^T R |
| AtomSteps.FrameOf | quippy/quippy/elasticity.py:260-286 | an atom without four neighbours has no frame; one with four has none exactly when the chosen skip test fires on its frame |
| AtomSteps.IdealFrameOf | quippy/quippy/elasticity.py:260-286 | an atom whose neighbours form the ideal tetrahedron, with a = 4 and no `primitive_index`, has no frame under the test as written and a frame under the corrected test |
| AtomSteps.PoseOfRotation | quippy/quippy/elasticity.py:349-381 | the oriented rotation has the Gram matrix of the polar factor R, and it is R with its rows cycled or not |
| AtomSteps.ReferenceStrainFacts | quippy/quippy/elasticity.py:363-369 | the strain reference changes the cache only by saves, and fails only when used without being saved |
| AtomSteps.ReferenceRotationFacts | quippy/quippy/elasticity.py:383-389 | the same for the rotation reference |
| AtomSteps.StrainStageFacts | quippy/quippy/elasticity.py:363-374 | the strain stage changes only atom i's strain and the saved references, by saves, and fails only when a reference is used without being saved |
| AtomSteps.RotationStageFacts | quippy/quippy/elasticity.py:383-389 | the rotation stage changes nothing but what a turn at atom i may change, and fails only when a reference is used without being saved |
| AtomSteps.CacheStepTwice | quippy/quippy/elasticity.py:363-389 | two cache steps in a row make one, with the first error kept |
| AtomSteps.FrameStep | quippy/quippy/elasticity.py:349-410 | one turn of the first loop changes only atom i's columns and saved cache keys |
| AtomSteps.FrameStepFails | quippy/quippy/elasticity.py:363-389 | a turn fails exactly when it uses an absent reference without saving one |
| AtomSteps.FrameStepSaves | quippy/quippy/elasticity.py:363-366 | with save_reference, both references of the atom's primitive index are in the cache afterwards |
| AtomSteps.FrameStepStrain | quippy/quippy/elasticity.py:363-374 | the stored strain is strain_vector(S), or of S times the saved inverse with use_reference |
| AtomSteps.FrameStepStress | quippy/quippy/elasticity.py:383-405 | the stored stress is the sample stress of the (reference-corrected) S and R |
| AtomSteps.FrameStepConsistent | quippy/quippy/elasticity.py:405-410 | the energy density and the eigen data of the atom match its stored strain and stress |
| AtomSteps.FourFoldStep | quippy/quippy/elasticity.py:253-410 | an unselected atom, or one without a frame, is left as it is |
| AtomSteps.Poses | quippy/quippy/elasticity.py:253-358 | under the skip test in the options, each atom with a frame gets the pose of that frame; the others get none |
| AtomSteps.FourFoldRun | quippy/quippy/elasticity.py:253-410 | atoms the loop does not compute, or has not reached, keep their columns; the cache only gains saved keys |
| AtomSteps.FourFoldRunAtoms | quippy/quippy/elasticity.py:253-410 | after an error-free run every computed atom holds the strain, stress and eigen data of its pose |
| Interpolation.NeighbourValues | quippy/quippy/elasticity.py:420 | the columns of the listed neighbours, in list order, with repetitions |
| Interpolation.InterpStep | quippy/quippy/elasticity.py:413-425 | atoms that are not interpolated are untouched; AttributeError exactly when the stress columns are missing |
| Interpolation.InterpAt | quippy/quippy/elasticity.py:419-425 | one interpolation turn changes only atom i's columns; it fails, with AttributeError, exactly when the stress columns are missing |
| Interpolation.InterpStepValues | quippy/quippy/elasticity.py:420-423 | an oxygen atom gets the mean of its neighbours' strains, and with cij their mean stress and matching eigen data |
| Interpolation.InterpRun | quippy/quippy/elasticity.py:413-425 | the loop keeps the cache and all other atoms, and fails only without stress columns |
| Interpolation.InterpRunMeans | quippy/quippy/elasticity.py:413-425 | when no interpolated atom (selected, oxygen, with neighbours) lists another interpolated atom among its neighbours, every interpolated atom holds the means of the first loop's values |
| FieldsPass.AddProperties | quippy/quippy/elasticity.py:234-242 | with cij, the stress, eigen and energy columns exist afterwards, zero if new; strain and cache are kept |
| FieldsPass.FirstLoop | quippy/quippy/elasticity.py:244-410 | atoms that are not four-fold keep their columns; the cache only gains saved keys |
| FieldsPass.ElasticFieldsPass | quippy/quippy/elasticity.py:167-425 | ValueError exactly when the argument checks fail, leaving the atoms as they were; KeyError only with use_reference but no save; AttributeError only when interpolating without stress columns |
| FieldsPass.PassLeavesOthers | quippy/quippy/elasticity.py:253-425 | under the skip test in the options (`AsWritten` is line 285 as written), atoms that neither loop handles keep their columns |
| FieldsPass.PassFourFoldAtoms | quippy/quippy/elasticity.py:253-425 | under the skip test in the options, a four-fold atom that is not interpolated holds the fields of its own frame |
| FieldsPass.FirstLoopAtoms | quippy/quippy/elasticity.py:253-410 | under the skip test in the options, after an error-free first loop every four-fold atom holds the fields of its frame |
| FieldsPass.IdealAtomFourFold | quippy/quippy/elasticity.py:253-286 | with the test as written the first loop never computes an ideal atom; with the corrected test it computes it exactly when it is selected |
| FieldsPass.PassInterpolatedAtoms | quippy/quippy/elasticity.py:413-425 | when no interpolated atom lists another interpolated atom among its neighbours, every interpolated atom holds the means of the first loop's results at its neighbours; without that condition line 420 reads values the loop has already overwritten |
| FieldsPass.PassIsLoops | quippy/quippy/elasticity.py:253-425 | a full pass without a first-loop error is the second loop run on the first loop's result |
| FieldsLoop.FourFoldRunStops | quippy/quippy/elasticity.py:253-410 | once the first loop has failed, running further changes nothing |
| FieldsLoop.InterpRunStops | quippy/quippy/elasticity.py:413-425 | once the second loop has failed, running further changes nothing |
| FieldsLoop.FourFoldLoop | quippy/quippy/elasticity.py:253-410 | the while loop over atoms computes FourFoldRun |
| FieldsLoop.InterpLoop | quippy/quippy/elasticity.py:413-425 | the while loop over atoms computes InterpRun |
| FieldsLoop.Run | quippy/quippy/elasticity.py:167-425 | the imperative elastic_fields computes ElasticFieldsPass |
| StressField.NewCalculator | quippy/quippy/elasticity.py:455-467 | ValueError for an unknown method, RuntimeError for a bulk without calculator; otherwise a and cij from the arguments, or from the bulk cell and its elastic constants |
| StressField.SetFirstRow | quippy/quippy/elasticity.py:488 | IndexError without atoms, and unless there are 1 or 3 values the ValueError numpy raises when it cannot broadcast; otherwise only the first atom's matrix changes, in row `row` |
| StressField.GetStressesAsWritten | quippy/quippy/elasticity.py:477-495 | reading `atoms.stress` as its six component rows, the python branch as written fails unless there are 1 or 3 atoms; otherwise it gives one matrix per atom |
| StressField.AsWrittenErrors | quippy/quippy/elasticity.py:488 | with the same reading, no atoms give IndexError (there is no `sigma[0]`); any count other than 1 or 3 gives ValueError (n xy values do not broadcast into a row of three) |
| StressField.AsWrittenLosesShear | quippy/quippy/elasticity.py:488-493 | with the same reading, wherever the branch succeeds entry (1, 2) of every atom's matrix is zero: `sigma[:,0,1]` is never assigned |
| StressField.AsWrittenMatrices | quippy/quippy/elasticity.py:488-493 | with the same reading, wherever the branch succeeds every atom but the first gets stress_matrix of its vector with xy set to zero, and the first atom gets yy and yz from the xy stresses of atoms 2 and 3 (its own when it is alone) and xy zero |
| StressField.AsWrittenCounterexample | quippy/quippy/elasticity.py:488-493 | with the same reading, three atoms with xy stresses 1, 2 and 0 and all else zero: the first atom gets xy 0 instead of 1 and yy 2 instead of 0 |
| StressField.GetStressesByAtoms | quippy/quippy/elasticity.py:486-488 | reading `atoms.stress` atom by atom along its last axis, the branch always raises ValueError: from the unpacking unless there are six atoms, and with six because the sixth vector does not broadcast into a row of three |
| StressField.StressesAsWritten | quippy/quippy/elasticity.py:477-495 | the array version of the written branch reports the same error, or holds the same matrices |
| StressField.SetFirstRowInPlace | quippy/quippy/elasticity.py:488 | the array changes as SetFirstRow says, or not at all on error |
| StressField.FirstFiveInPlace | quippy/quippy/elasticity.py:477-488 | a zero array with the five components xx, yy, zz, yz, xz of each atom set |
| StressField.FillInPlace | quippy/quippy/elasticity.py:490-493 | each matrix gets its lower triangle copied from its upper triangle |
| StressField.FillMatrixSymmetric | quippy/quippy/elasticity.py:490-493 | the filled matrix is symmetric and keeps the upper triangle |
| StressField.GetStresses | quippy/quippy/elasticity.py:470-495 | one symmetric matrix per atom |
| StressField.Stresses | quippy/quippy/elasticity.py:477-495 | the array version with all six components set computes GetStresses |
| StressField.FilledUpperIsStressMatrix | quippy/quippy/elasticity.py:483-493 | the six assignments and the fill give stress_matrix of the atom's vector |
| StressField.GetStressesAreStressMatrices | quippy/quippy/elasticity.py:470-495 | atom t's matrix is stress_matrix of its stress vector, and turns back into that vector |
| StressField.CalculatorStresses | quippy/quippy/elasticity.py:470-495 | the calculator gives each atom the stress matrix of its stress columns |
| StressField.SumOfStressMatrices | quippy/quippy/elasticity.py:502 | summing stress matrices is taking the stress matrix of the summed vectors |
| StressField.StressMatrixAdd | quippy/quippy/elasticity.py:502 | stress_matrix is additive |
| StressField.CalculatorStress | quippy/quippy/elasticity.py:497-502 | get_stress is stress_matrix of the summed stress vectors, and its Voigt form is that sum |
| Cutoffs.Key | Tools/quippy/qlab.py:232-234 | (min, max) of the pair, the same for both orders |
| Cutoffs.PairCutoff | Tools/quippy/qlab.py:237-245 | nneightol times the bond length; else the uniform cutoff; else the cutoff times the bond length |
| Cutoffs.Keys | Tools/quippy/qlab.py:232-234 | the keys of the recorded patches, in order |
| Cutoffs.Visit | Tools/quippy/qlab.py:232-246 | a seen pair changes nothing; a new one is recorded and patched with its cutoff |
| Cutoffs.SetCutoffs | Tools/quippy/qlab.py:227-246 | every pair of species present is patched, once per unordered pair, each with its cutoff |
| ViewerNames.Basename | Tools/quippy/qlab.py:328 | no '/' in the result; a path without '/' is its own base name |
| ViewerNames.BasenameOfJoin | Tools/quippy/qlab.py:328 | the base name of dir/name is name |
| ViewerNames.StripExtension | Tools/quippy/qlab.py:328 | the root is a prefix of the name; when it differs, what is cut starts at the last '.', and a non-dot character comes before that '.' |
| ViewerNames.StripExtensionChanges | Tools/quippy/qlab.py:328 | the name changes exactly when some '.' after the first character has a non-dot character before it, so a name without '.', or whose dots all lead, is kept whole |
| ViewerNames.StripExtensionOfJoin | Tools/quippy/qlab.py:328 | splitext of root.ext gives root back when root has a non-dot character |
| ViewerNames.CleanRemovesUnclean | Tools/quippy/qlab.py:329 | no '-', '.', '*' or '?' is left, and a clean string is kept |
| ViewerNames.CleanIdempotent | Tools/quippy/qlab.py:329 | cleaning twice is cleaning once |
| ViewerNames.DefaultName | Tools/quippy/qlab.py:324-333 | the source's own name, the cleaned file root, 'al' for an iterable, 'at' otherwise |
| ViewerNames.PathNameClean | Tools/quippy/qlab.py:327-329 | the name from dir/root.ext is the cleaned root |
| ViewerNames.ParseNatToString | Tools/quippy/qlab.py:341 | reading back '%d' % n gives n |
| ViewerNames.NatToStringInjective | Tools/quippy/qlab.py:341 | different numbers are written differently |
| ViewerNames.Numbered | Tools/quippy/qlab.py:341 | '%s_%d' % (name, n) starts with name and '_' |
| ViewerNames.NumberedInjective | Tools/quippy/qlab.py:337-341 | different n give different numbered names |
| Viewers.Viewer.constructor | Tools/quippy/qlab.py:34-39 | the viewer keeps its name |
| Viewers.Registry.constructor | Tools/quippy/qlab.py:24-25 | no viewers and no current viewer |
| Viewers.Registry.Open | Tools/quippy/qlab.py:34-44 | the new viewer is registered under its name, replacing any before it, and becomes current |
| Viewers.Registry.Close | Tools/quippy/qlab.py:92-97 | the name's entry goes; the current viewer is cleared if it was this one |
| Viewers.Registry.SetCurrent | Tools/quippy/qlab.py:405-410 | the viewer becomes current; the registry is unchanged |
| Viewers.Registry.Show | Tools/quippy/qlab.py:118-130 | showing makes the viewer current; the registry is unchanged |
| Viewers.Registry.CurrentViewer | Tools/quippy/qlab.py:396-403 | ValueError exactly when there is no current viewer, otherwise the current one |
| Viewers.Registry.Pairs | Tools/quippy/qlab.py:412-418 | exactly the (name, viewer) entries of the registry |
| Viewers.Registry.UniqueName | Tools/quippy/qlab.py:335-342 | the result is free; it is the name itself if free, else name_n for the smallest free n >= 2 |
| Viewers.Registry.FindViewer | Tools/quippy/qlab.py:321-350 | name given or derived, made unique without recycle; the registered viewer of that name is returned and made current, else none and the current viewer is kept |
| Viewers.NumberedUpToSize | Tools/quippy/qlab.py:337-341 | the numbered names 2..n are n - 1 different names |
| Viewers.NumberedTaken | Tools/quippy/qlab.py:339-341 | a name and its numbered names up to n all taken means at least n names are taken, which bounds the loop |

## Left out

- Numerics: `np.linalg.eig`, `np.sqrt`, `D**-0.5` and `np.linalg.inv` (quippy/quippy/elasticity.py:212, 353-358, 366) are a parameter of the model, so their numerical properties are not modelled; S and R are any pair the parameter returns.
- The lattice constant derived from the bond length (line 226) is the parameter `fromBondLength`; the model does not fix the formula.
- Floating point, `farray` one-based arrays and numpy broadcasting are modelled by mathematical reals and explicit indices; the check tolerance 1e-10 and the 1e-6 cut-off keep their values.
- FieldsPass.Arguments asks for a non-zero lattice constant, for a mask with one flag per atom and for columns sized to the atoms; the source divides by a and indexes the mask without checking these.
- The `anatase` system (lines 258-259, 288-340, 427-428) and its printing are left out; only `tetrahedric` is modelled.
- `calc_connect_hysteretic` (line 229) and the neighbour lists are inputs: the model takes the neighbour lists as given.
- `add_property('strain', ...)` (line 235) is taken as always present; the stress columns are added with cij, as in the source.
- `elastic_fields_fortran` is foreign code; the calculator's fortran branch (lines 478-484), with `set_cutoff` and `calc_connect`, is modelled only through the stress columns it reads; `isinstance` and the conversion to `Atoms` (474-475) are left out.
- StressField.GetStressesAsWritten: takes `atoms.stress` as its six component rows, one value per atom in each. How quippy's `FortranArray` iterates a 6 x n property is not part of this model; the other reading, atom by atom along the last axis, is StressField.GetStressesByAtoms, which always raises.
- AtomicStrain.AtomStrain: requires r0 != 0 and crystal_factor != 0; the source divides by both without checking, so numpy would give inf or nan there, which reals cannot express. With crystal_factor = 0 even an atom without neighbours would get nan (0/0).
- AtomicStrain.AtomicStrain: has the same two requirements as AtomicStrain.AtomStrain, for the same reason.
- StressField.CalculatorStresses: models both methods by the corrected assembly, not the python branch as written (the written one is StressField.GetStressesAsWritten, see Findings). Its calculator argument, and that of StressField.CalculatorStress, does not affect the result: the call `elastic_fields(atoms, a=self.a, cij=self.cij, **self.extra_args)` at line 486, like the fortran routine, is taken as the stress columns it leaves, which are a parameter, and is not composed with FieldsPass.ElasticFieldsPass.
- StressField.CalculatorStress: sums CalculatorStresses, so its calculator argument likewise acts only through the stress columns.
- The `get_stress` docstring (line 499) speaks of a 6-element array, but the code returns the 3x3 sum; the model follows the code.
- The first definitions of `elasticity_matrix_to_tensor` and `elasticity_tensor_to_matrix` (lines 505-539) are shadowed by those at 549-584 and are not modelled separately.
- `fit_elastic_constants` and `elastic_constants` (135-147) only raise NotImplementedError; `rayleigh_wave_speed` (619 onwards) is numerical root finding; both are left out.
- Viewers.Registry.Open: does not call `set_cutoffs` (line 42); that loop is modelled on its own as Cutoffs.SetCutoffs, whose species, bond lengths and settings come in as parameters, and `ElementName`, `rcut_patch` and the printing are foreign or output.
- Cutoffs.SetCutoffs: the iteration order of Python's `set(at.z)` is not modelled; the species come as a list without repetitions, so the contract states only which pairs are patched and with which cutoff.
- The AtomEye window, redrawing, `show`'s loading of frames, `_property_hook`, `_click_hook`, `_redraw_hook`, `clip_visible` and the top-level `show`/`view` are GUI or I/O and are left out.
- Default arguments are not modelled; the model members take these values as explicit parameters: `crystal_factor=1.0` of `atomic_strain`; `method='fortran'` of `AtomResolvedStressField` (the `name` argument of StressField.NewCalculator); the `None`/`False` defaults of `elastic_fields` (its options, `a` and `bond_length`); `nneighb_only=True` of `set_cutoffs` (in Cutoffs.Settings); and `name=None` and `recycle=True` of `find_viewer`. Three defaults feed only code outside the model: `cutoff=3.0` of `get_stresses` and `cutoff_factor=1.2` of `elastic_fields` are used for neighbour finding, and `system='tetrahedric'` is the one system modelled.
- doc/make_crack_2.py is not part of this model.

## Findings

| source | as written | input that shows it | evidently intended | confidence | as-written member | corrected member |
|---|---|---|---|---|---|---|
| quippy/quippy/elasticity.py:285 | `all(E[:,3]) == 0` skips the atom whenever some entry of the third column is zero | the ideal diamond tetrahedron, whose frame has columns -e3, -e1, -e2 (Neighbours.IdealFrame): it is skipped, so the first loop never computes an atom of the perfect lattice (FieldsPass.IdealAtomFourFold with `AsWritten`) | `all(E[:,3] == 0)`, as for the first two columns: skip only when the whole column is zero | not executed | Frame.SkipAsWrittenDiscardsIdealFrame | Frame.SkipRulesCompared |
| quippy/quippy/elasticity.py:488 | `sigma[0,1]` is the row of atom 0's matrix, so, reading `atoms.stress` as its six component rows, the xy stresses go into atom 0's second row and no atom gets its xy stress; with that reading any count of atoms other than 1 or 3 fails to broadcast, and reading it atom by atom the branch always raises (StressField.GetStressesByAtoms) | three atoms with xy stresses 1, 2 and 0: atom 0 ends with xy 0 and yy 2 | `sigma[:,0,1]`, as in the fortran branch at line 483 | not executed | StressField.AsWrittenCounterexample | StressField.GetStressesAreStressMatrices |
