# RULA-style ergonomic risk scorer

This project models the ergonomic risk scorer in `DensePoseData/pose_estimation.py`.

`calculate_angle` measures the angle at a vertex between two other landmarks, using the dot product and the arc-cosine. `calculate_ergonomic_risk` does the rest:

- it reads twelve named landmarks from the `pose_landmarks` dictionary;
- it measures six joint angles: upper arm, lower arm, wrist, neck, trunk and legs;
- it scores each angle against a RULA-style score dictionary, as `TABLE[min([key for key in TABLE if angle >= key])]`;
- it sums the six scores and maps the sum to one of three action levels.

The model is pure: datatypes, functions and lemmas, one module per concern.

- `Errors`: the Python exceptions the code can raise, as a `Result` type. Using `:-` then propagates a failure the way an uncaught exception leaves the function.
- `Geometry`: `calculate_angle` over real coordinates.
  - `math.sqrt`, `math.acos` and `math.pi` are passed in as a `RealMath` value.
  - `Valid` states the only facts used about them: `sqrt` returns the non-negative square root, `acos` maps [-1, 1] into [0, pi], and `pi` is positive.
  - `math.degrees(r)` is written out as `r * 180 / pi`.
- `ScoreTables`: the six score dictionaries and the lookup.
  - Each dictionary is a list of `key: score` items in literal order, with distinct keys.
  - The lookup takes the angle as a plain `real`, so it is verified independently of trigonometry.
- `ActionLevels`: the `if`/`elif`/`else` classification of the overall score.
- `ErgonomicRisk`: the whole of `calculate_ergonomic_risk`.
  - It keeps the source's evaluation order: three reads, then the elbow angle, then nine reads, then the six regions.
  - So the error it reports is the one the source raises first.

The lookup rule picks the smallest key at or below the angle. Every table's smallest key scores 1, so every successful call returns the score 6 and the level "Further investigation and change soon". `ErgonomicRisk.CalculateErgonomicRisk` states this, and it also states exactly when a call succeeds.

A missing landmark is modelled as the error the code raises (`KeyError`), not as a precondition, since the code handles it by raising. The dictionary is a `map<string, Point>` keyed by the names the code uses.

## Model

| member | source | states |
|---|---|---|
| `Geometry.CalculateAngle` | DensePoseData/pose_estimation.py:3-26 | the angle is defined exactly when neither outer point coincides with the vertex; otherwise the division raises ZeroDivisionError; a defined angle lies in [0, 180] degrees |
| `Geometry.ZeroDenominatorIff` | DensePoseData/pose_estimation.py:19-23 | the product of the two magnitudes is zero exactly when an outer point equals the vertex |
| `Geometry.AngleInRange` | DensePoseData/pose_estimation.py:18-24 | for a non-degenerate triple the quotient passed to `math.acos` lies in its domain [-1, 1], and the degrees lie in [0, 180] |
| `Geometry.UnitCosine` | DensePoseData/pose_estimation.py:18-23 | for two nonzero vectors, the dot product over the product of the magnitudes is in [-1, 1] and the denominator is positive |
| `Geometry.CauchySchwarz` | DensePoseData/pose_estimation.py:18-20 | the squared dot product is at most the product of the squared lengths |
| `Geometry.Lagrange` | DensePoseData/pose_estimation.py:18-20 | product of squared lengths minus squared dot product equals the square of the cross product |
| `Geometry.MagnitudeFacts` | DensePoseData/pose_estimation.py:19-20 | a magnitude is non-negative and is zero exactly for the zero vector |
| `Geometry.AngleSymmetric` | DensePoseData/pose_estimation.py:14-23 | swapping p1 and p3 gives the identical result, including the identical error |
| `Geometry.DegreesOfAcosRange` | DensePoseData/pose_estimation.py:23-24 | the arc-cosine of an in-domain quotient, converted to degrees, is in [0, 180] |
| `ScoreTables.Qualifying` | DensePoseData/pose_estimation.py:77 | the list comprehension holds exactly the table keys at or below the angle |
| `ScoreTables.MinOf` | DensePoseData/pose_estimation.py:77 | `min` of a non-empty list is a member of it and no greater than any member |
| `ScoreTables.ScoreOf` | DensePoseData/pose_estimation.py:77 | the dictionary subscript returns the score the table pairs with that key |
| `ScoreTables.Lookup` | DensePoseData/pose_estimation.py:77 | succeeds exactly when some key is at or below the angle, and otherwise fails with the empty-`min` error; on success the score is the one the table pairs with the smallest such key |
| `ScoreTables.LookupByMinKey` | DensePoseData/pose_estimation.py:77-97 | the lookup fails exactly for angles below the table's smallest key; otherwise it returns that key's score, whatever the angle |
| `ScoreTables.TableMinima` | DensePoseData/pose_estimation.py:40-47 | smallest keys 20, 20, 0, 0, 0 and 1 for upper arm, lower arm, wrist, neck, trunk and legs, each scoring 1 |
| `ActionLevels.ActionLevelFor` | DensePoseData/pose_estimation.py:103-108 | 7 and above gives "Investigate and implement change"; 5 and 6 give "Further investigation and change soon"; the rest gives "Acceptable"; each stated in both directions |
| `ActionLevels.ActionLevelMonotone` | DensePoseData/pose_estimation.py:103-108 | a higher score never yields a less urgent level |
| `ActionLevels.LabelInjective` | DensePoseData/pose_estimation.py:104-108 | the three labels are distinct, so the returned string determines the level |
| `ErgonomicRisk.Get` | DensePoseData/pose_estimation.py:51-73 | `pose_landmarks[key]` returns the stored point when the key is present and raises KeyError naming the key otherwise |
| `ErgonomicRisk.SumOfSix` | DensePoseData/pose_estimation.py:100 | `sum` of the six region scores is their arithmetic sum |
| `ErgonomicRisk.RegionScore` | DensePoseData/pose_estimation.py:76-97 | one region succeeds exactly when its angle is defined and reaches the table's smallest key; it then scores that key's score; its only errors are ZeroDivisionError and the empty-`min` error |
| `ErgonomicRisk.AngleAtLeastZero` | DensePoseData/pose_estimation.py:84-93 | for the wrist, neck and trunk tables, whose smallest key is 0, the only condition is a non-degenerate triple |
| `ErgonomicRisk.ScorePose` | DensePoseData/pose_estimation.py:75-110 | the six regions succeed exactly when all six angles are defined and reach their tables' smallest keys; the result is then always (6, "Further investigation and change soon") |
| `ErgonomicRisk.AllPresentIff` | DensePoseData/pose_estimation.py:51-73 | the twelve presence conditions are exactly "every name the function reads is a key" |
| `ErgonomicRisk.CalculateErgonomicRisk` | DensePoseData/pose_estimation.py:28-110 | the call succeeds exactly when all twelve landmarks are present and the poses are scorable; success always returns (6, "Further investigation and change soon"); any absent landmark is an error, and that error is a KeyError unless the elbow triple of line 56 is degenerate; a KeyError names a required landmark that is absent |

## Left out

- Floating point is not modelled. Coordinates and angles are exact reals, so rounding is left out. So is the `ValueError` that `math.acos` can raise when a rounded quotient lands just outside [-1, 1]. In exact arithmetic the quotient always lies in [-1, 1], and `Geometry.AngleInRange` proves this.
- `math.sqrt`, `math.acos` and `math.pi` are parameters (`Geometry.RealMath`) constrained by `Geometry.Valid`; they are not computed.
- Landmarks are `(x, y)` pairs of reals. Tuple unpacking of a value that is not a pair (a `ValueError` or `TypeError` in Python) is not modelled.
- The elbow check (lines 34-37 and 56-60) is modelled as written:
  - the elbow angle is computed, and its `ZeroDivisionError` propagates;
  - the points it earns go into a local score that the result never reads, so no contract is stated about that score.
- ErgonomicRisk.CalculateErgonomicRisk: does not state which missing key a `KeyError` names when several are missing. It states that the error names an absent required key. The body reads the keys in the source's order, so the first absent one is raised.
- The remaining files of the repository are not part of this model:
  - BVH parsing and rendering (`extract_bvh_pose_data.py`, `test_bvhtoolbox.py`);
  - dataset and CSV inspection (`inspect_dataset.py`, `inspect_csv.py`);
  - plotting (`visualize_risk_scores.py`).
  
  They are I/O wrappers over external libraries.
