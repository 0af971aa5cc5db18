# Canny edge detector: a verified model

This project models the image-processing core of a browser-side Canny edge
detector, `js/main.js`. The core has four stages, each reading an RGBA raster
(`ImageData`) and returning a freshly allocated one:

1. `gaussianBlur` convolves the raster with a square matrix. Sample
   coordinates are clamped to the edges. In grayscale mode the three channel
   sums collapse into one floored density.
2. `sobelFilter` applies the 3 by 3 Sobel kernels to the density (red)
   channel. It stores the gradient magnitude as a grey pixel and rounds the
   gradient angle to an angle code, 0, 45, 90 or 135, kept in a separate map.
3. `nonMaxSuppression` keeps a pixel only when its density is at least that
   of both neighbours along its angle code. Every other pixel becomes black.
4. `doubleThreshold` does single-pass hysteresis. Pixels at or above the
   high threshold are kept. A pixel at or above the low threshold is kept
   when its clamped 3 by 3 neighbourhood holds a strong pixel.

`createConvolution` builds the normalised Gaussian matrix, and the process
button chains the stages up to the one the user selects.

Each stage is an imperative Dafny method over the `ImageData` class (`Raster`
module), with the same nested loops as the source. Each method is proved to
fill its fresh output with a per-pixel specification function: `BlurPixel`,
`SobelPixel`/`SobelAngle`, `NmsPixel` and `ThresholdPixel`. The predicates
`IsBlurring`, `IsSobel`, `IsSuppression` and `IsThresholding` collect those
per-pixel facts. The lemmas state what the stages promise in terms of those
functions:
- the kernel sums to one;
- uniform images stay uniform and have no edges;
- suppression and thresholding never brighten a pixel and are idempotent;
- hysteresis is monotone in its thresholds.

No stage method has a `modifies` clause for its input, so the input raster is
never written.

The code validates none of its parameters, and the model follows it:
- There are no typed errors for `sigma <= 0`, `low > high` or mismatched
  shapes.
- A zero `sigma` produces NaN weights. The model requires `sig != 0` instead
  of inventing an error path.
- `low > high` is accepted and behaves as the branches dictate.

`Math.sqrt`, `Math.atan2` and `Math.pow(Math.E, ·)` are function-typed
parameters. The predicates `JsMath.SqrtLike`, `JsMath.Atan2Like` and
`JsMath.ExpLike` state the facts that properties assume about them, and only
where a lemma needs them. A few lemmas assume single values instead:
- `sqrt(0) == 0` and `atan2(0, 0) == 0`, as in JavaScript;
- `atan2(1, 1) == PI/4`, for `Orientation.AsWrittenCounterexample`.

## Model

| member | source | states |
|---|---|---|
| Raster.Clamp | js/main.js:32-37 | for a dimension `n >= 1` the clamped coordinate lies in `[0, n-1]` and is the nearest such coordinate to the requested one |
| Raster.PixInRaster | js/main.js:38 | every pixel of a `w` by `h` raster has its four channel indices `4*(x+y*w) .. +3` inside the `4*w*h` buffer, so every clamped read is in bounds |
| Raster.ImageData.constructor | js/main.js:16 | `new ImageData(w, h)` has the given size and a fresh, zero-filled buffer of `4*w*h` bytes |
| Raster.PutPixel | js/main.js:52-55 | the four stores of one output pixel set exactly that pixel and leave every other pixel unchanged |
| Raster.PutCell | js/main.js:130 | the store into the angle map sets exactly the entry `x + y*w`; every other entry is unchanged |
| Raster.ClampToByte | js/main.js:52-54 | storing an integer into the clamped buffer gives the byte nearest to it |
| Raster.StoreReal | js/main.js:133-135 | storing the magnitude gives the byte nearest to it, with ties going to the even byte |
| JsMath.AbsReal | js/main.js:123 | `Math.abs` is non-negative and equals the argument or its negation |
| Kernel.Normalize | js/main.js:321-326 | definition: every entry of the raw matrix divided by the raw total |
| Kernel.NormalizeSumsToOne | js/main.js:321-326 | after dividing every entry by the total, the matrix sums to exactly one |
| Kernel.RawWeight | js/main.js:313-316 | definition: the weight of row `i`, column `j` is `1/(2*PI*sig^2) * e^(-(x^2+y^2)/(2*sig^2))` with `x = j - rad`, `y = i - rad` |
| Kernel.RawKernel | js/main.js:312-319 | definition: the `2*rad+1` by `2*rad+1` matrix of raw weights, before normalisation |
| Kernel.RawWeightPositive | js/main.js:316 | every raw Gaussian weight is positive for `sig != 0` |
| Kernel.RawTotalPositive | js/main.js:310-319 | the running `sum` of raw weights is positive, so the division in the second loop is defined |
| Kernel.GaussianKernel | js/main.js:306-329 | the matrix is `2*rad+1` rows of `2*rad+1` entries |
| Kernel.KernelSumsToOne | js/main.js:321-326 | the kernel `createConvolution` returns sums to one |
| Kernel.KernelPositive | js/main.js:316-324 | every kernel entry is positive |
| Kernel.RadiusZeroIsIdentity | js/main.js:308-326 | radius 0 gives the identity matrix `[[1]]` |
| Kernel.KernelSymmetric | js/main.js:313-316 | the kernel is unchanged by transposition and by mirroring its rows or its columns |
| Kernel.CreateConvolution | js/main.js:306-329 | the two double loops return the normalised Gaussian kernel |
| Kernel.FillRawWeights | js/main.js:309-319 | the first double loop builds the raw-weight matrix, and `sum` ends as its total |
| Kernel.FillRow | js/main.js:314-318 | one inner pass builds one row of raw weights and adds that row's sum to `sum` |
| Kernel.DivideAll | js/main.js:321-326 | the second double loop divides every entry by `sum`, giving the normalised matrix |
| Blur.Window | js/main.js:29-43 | definition: the `convDiam` by `convDiam` neighbourhood of one channel, each sample at the offset `(convX - convDiam/2, convY - convDiam/2)` clamped to the raster |
| Blur.Conv | js/main.js:24-45 | definition: `newR`, `newG` or `newB`, the matrix entries times the window entries, summed row by row |
| Blur.BlurPixel | js/main.js:48-55 | definition: in grayscale mode all three channels get the clamped floor of the mean of the three sums; otherwise each channel gets the clamped floor of its own sum; alpha is 255 |
| Blur.ConvOfUniform | js/main.js:24-45 | over a channel of constant value `v`, the channel sum is the matrix total times `v` |
| Blur.ConvBounds | js/main.js:24-45 | with non-negative weights each channel sum lies between 0 and 255 times the matrix total |
| Blur.BlurKeepsUniform | js/main.js:24-55 | with a matrix summing to one, a single-coloured raster keeps its colour without grayscale, and becomes the integer mean of its channels with it |
| Blur.BlurOfBlack | js/main.js:24-55 | a raster with all-zero colour channels blurs to opaque black for any matrix and mode |
| Blur.IdentityBlur | js/main.js:29-55 | the matrix `[[1]]` without grayscale copies every pixel's colour and makes it opaque |
| Blur.NormalisedBlurNeverSaturates | js/main.js:49-54 | with non-negative weights summing to one the clamped store never saturates: each channel is the floored sum |
| Blur.GaussianKeepsUniform | js/main.js:24-55 | without grayscale, the matrix `createConvolution` builds keeps a single-coloured raster unchanged (made opaque); `Canny.BlurOfUniform` covers the default grayscale mode |
| Blur.Convolve | js/main.js:24-46 | the double loop over the matrix computes the three channel sums of the pixel's clamped neighbourhood |
| Blur.ConvolveRow | js/main.js:34-45 | one inner pass adds matrix row `convY` times its clamped samples to each running sum |
| Blur.SampleAt | js/main.js:37-43 | the three bytes read at `4*(cx+cy*w)` are the neighbourhood samples of that matrix cell |
| Blur.BlurRow | js/main.js:22-57 | one `x` pass writes the blurred pixel at every position of row `y` and changes no other row |
| Blur.GaussianBlur | js/main.js:6-62 | a fresh image of the same size whose every pixel is the blurred pixel (floored, clamped, mean in grayscale, alpha 255) |
| Sobel.MagX | js/main.js:96-117 | definition: `magX`, the horizontal kernel's products with the nine clamped densities, summed in loop order |
| Sobel.MagY | js/main.js:96-117 | definition: `magY`, the vertical kernel's products with the nine clamped densities, summed in loop order |
| Sobel.SobelPixel | js/main.js:119-136 | definition: the stored value of `sqrt(magX^2 + magY^2)` in the three colour channels, alpha 255 |
| Sobel.MagXColumns | js/main.js:83-117 | `magX` is the weighted left column minus the weighted right column of the clamped neighbourhood |
| Sobel.MagYRows | js/main.js:87-117 | `magY` is the weighted top row minus the weighted bottom row of the clamped neighbourhood |
| Sobel.GradientBounds | js/main.js:96-117 | both directional totals lie in `[-1020, 1020]` |
| Sobel.UniformIsFlat | js/main.js:104-109 | in a raster of uniform density all nine clamped taps of every pixel are equal |
| Sobel.FlatHasNoGradient | js/main.js:96-117 | nine equal taps give `magX == magY == 0` |
| Sobel.QuantizeAngle | js/main.js:125-128 | the rounded angle is one of 0, 45, 90 and 135 |
| Sobel.QuantizeNearest | js/main.js:122-128 | for an angle in `[0, PI]`, the code is the direction whose line is nearest to the angle's |
| Sobel.AngleCode | js/main.js:123-128 | the code of any pair of totals is one of the four directions |
| Sobel.SobelAngle | js/main.js:123-130 | every stored angle code is one of the four directions |
| Sobel.EdgeIffGradient | js/main.js:119-136 | with a true square root, a pixel is black exactly when both totals are zero |
| Sobel.StrongGradientSaturates | js/main.js:120-135 | with a true square root, a gradient of norm at least 255 stores white |
| Sobel.FlatHasNoEdge | js/main.js:96-136 | a pixel whose nine clamped taps are equal is black with angle code 0, when `sqrt(0) == 0` and `atan2(0, 0) == 0` |
| Sobel.UniformHasNoEdges | js/main.js:96-136 | a raster of uniform density gives black pixels and angle code 0 when `sqrt(0) == 0` and `atan2(0, 0) == 0` |
| Sobel.GradientRow | js/main.js:106-116 | one `sobelX` pass adds one kernel row's products to `magX` and `magY` |
| Sobel.Gradient | js/main.js:96-117 | the double loop computes `magX` and `magY` of the pixel |
| Sobel.SobelAt | js/main.js:119-136 | the loop body computes the stored magnitude pixel and the angle code through the literal bin chain |
| Sobel.SobelRow | js/main.js:94-138 | one `x` pass fills row `y` of both outputs and changes no other row |
| Sobel.SobelFilter | js/main.js:69-143 | a fresh image and a fresh `w*h` angle map holding the magnitude pixel and the angle code of every pixel |
| NonMax.Offset | js/main.js:174-189 | definition: the step to the first compared neighbour: east for 0, north for 90, north-east for 45 and north-west for any other code; the second neighbour lies one step the other way |
| NonMax.LocalMax | js/main.js:193 | definition: the pixel's density is at least that of both clamped neighbours along its code |
| NonMax.NmsPixel | js/main.js:167-206 | definition: the input colour made opaque for a local maximum, otherwise opaque black |
| NonMax.NeverBrightens | js/main.js:193-206 | suppression never raises a colour channel and always sets alpha 255 |
| NonMax.KeptOrBlack | js/main.js:193-206 | every output pixel is the input colour made opaque or opaque black; it is the input colour exactly when the pixel is a tied-or-strict local maximum along its code (or the colour is black anyway) |
| NonMax.NeighbourhoodMaxKept | js/main.js:174-198 | a pixel at least as dense as its whole clamped 3 by 3 neighbourhood is kept, whatever its code |
| NonMax.UniformKept | js/main.js:174-198 | in a raster of uniform density every pixel is kept (ties keep) |
| NonMax.Idempotent | js/main.js:151-214 | suppressing the output again with the same angle map changes no pixel |
| NonMax.ComparedPoints | js/main.js:174-189 | the four branches compare the clamped neighbours one step along the code's offset and one step the opposite way; any code other than 0, 90 and 45 takes the north-west/south-east branch |
| NonMax.SuppressAt | js/main.js:167-206 | the loop body stores the suppressed-or-kept pixel for its angle code |
| NonMax.NonMaxSuppression | js/main.js:151-214 | a fresh image of the same size holding the suppressed-or-kept pixel everywhere |
| Threshold.HasStrongNeighbour | js/main.js:252-274 | definition: some cell of the clamped 3 by 3 blob, the pixel itself included, reaches the high threshold |
| Threshold.ThresholdPixel | js/main.js:241-296 | definition: a strong pixel is kept; a pixel reaching only the low threshold is kept when it has a strong neighbour; any other pixel is opaque black; kept pixels are made opaque |
| Threshold.StrongHasStrongNeighbour | js/main.js:254-270 | the blob includes the pixel itself, so a strong pixel has a strong neighbour |
| Threshold.KeptIffWeakNearStrong | js/main.js:241-296 | with `low <= high` a pixel is kept exactly when it reaches `low` and its blob holds a pixel reaching `high`; otherwise it is black |
| Threshold.SingleThreshold | js/main.js:223 | with the default `lowThreshold = highThreshold`, a pixel is kept exactly when it reaches the threshold |
| Threshold.NeverBrightens | js/main.js:241-296 | thresholding never raises a colour channel and always sets alpha 255 |
| Threshold.Monotone | js/main.js:241-296 | lowering either threshold keeps every pixel that was kept, unchanged; so raising `high` never adds kept pixels |
| Threshold.Idempotent | js/main.js:223-304 | thresholding the output again with the same thresholds changes no pixel |
| Threshold.BlobHasStrong | js/main.js:252-274 | the labelled blob scan sets `keep` exactly when some clamped cell of the 3 by 3 blob reaches the high threshold |
| Threshold.ThresholdAt | js/main.js:239-296 | the loop body stores the strong, weak-kept or black pixel as the branches decide |
| Threshold.DoubleThreshold | js/main.js:223-304 | a fresh image of the same size holding the thresholded pixel everywhere |
| Orientation.AsWrittenDiagonalIgnoresMagY | js/main.js:123-128 | as written, code 45 needs `magX > 0` and code 135 needs `magX < 0`, whatever the sign of `magY` |
| Orientation.AsWrittenDiagonalSwapped | js/main.js:123-128 | as written, when `magY > 0` every diagonal code compares along the edge instead of across it |
| Orientation.AsWrittenCounterexample | js/main.js:123 | on the 3 by 3 raster with density 1 only at the top-left pixel, the centre gets code 45, which compares along the edge |
| Orientation.CorrectedAngle | js/main.js:123-128 | the corrected code is one of the four directions |
| Orientation.CorrectedAcrossEdge | js/main.js:123-128 | the corrected code picks the diagonal nearer the gradient, 0 for a horizontal gradient and 90 for a vertical one |
| Orientation.CorrectedSuppressionAcrossEdge | js/main.js:174-206 | suppression under a corrected angle map compares every pixel with its neighbours across the edge |
| Canny.StepOf | js/main.js:405-422 | all four stages run exactly when `proc` is none of `"gaussian"`, `"sobel"` and `"nonmax"` |
| Canny.Pipeline | js/main.js:405-422 | definition: the output is what the stages up to the selected one make of the input, through some intermediate images each stage's predicate accepts |
| Canny.Process | js/main.js:405-422 | the output is what the chain of stages up to the selected one makes of the input, the blur in its default grayscale mode |
| Canny.BlurOfUniform | js/main.js:406-409 | with a matrix summing to one, the blur of a single-coloured image is one grey, the mean of its colour channels |
| Canny.SobelOfUniform | js/main.js:410 | the Sobel stage turns a single-coloured image black |
| Canny.SuppressionOfBlack | js/main.js:415 | suppression of an all-black image is all black |
| Canny.ThresholdingOfBlack | js/main.js:421 | thresholding of an all-black image is all black |
| Canny.UniformImageHasNoEdges | js/main.js:405-422 | a single-coloured image has no edges: the blur alone gives one grey, and every longer chain gives an all-black image |

## Left out

- The user-interface wiring is not modelled. This covers the element lookups and the `onchange` handlers that parse and clamp the form values (`rad`, `sig`, thresholds, `proc`), plus image URL loading. It is browser I/O.
- Canvas reads and writes (`drawImage`, `getImageData`, `putImageData`) and the `performance.now()` timing log are not modelled. `Canny.Process` starts from an image already read from the canvas.
- IEEE floating point is not modelled. Sums, products, quotients and the square root are exact reals, so the rounding of the convolution sums and of the kernel weights is not captured. `Kernel.KernelSumsToOne` is exact over the reals, where the source sums to one only approximately.
- `Math.sqrt`, `Math.atan2` and `Math.pow(Math.E, ·)` are parameters, not definitions. Properties that need them assume only `SqrtLike`, `Atan2Like`, `ExpLike`, `sqrt(0) == 0` and `atan2(0, 0) == 0` (JavaScript's values), or `atan2(1, 1) == PI/4` (`Orientation.AsWrittenCounterexample`).
- NaN, infinities and negative zero are not modelled.
- Kernel.CreateConvolution: requires `sig != 0`. With `sig == 0` the source divides by zero and returns a matrix of NaN. The model has no NaN.
- Blur.GaussianBlur: requires a square matrix, which is what `createConvolution` returns. The source would read `undefined` from a row shorter than the matrix is tall. It would ignore the extra entries of a longer row, and the model does not cover that case.
- NonMax.NonMaxSuppression: requires the angle map to have `w*h` entries. With a shorter one the source reads `undefined` and takes the north-west/south-east branch.
- `new ImageData(0, h)` throws in a browser. The model allows empty rasters, and the stages then produce empty images.
- The process button's stage chain always blurs with the default `grayscale = true`, as the source does. The non-grayscale mode is modelled in `Blur.GaussianBlur` itself.

## Findings

| source | as written | input that shows it | evidently intended | confidence | as-written member | corrected member |
|---|---|---|---|---|---|---|
| js/main.js:123 | the angle code is `|atan2(magY, magX)|`. With `magX` = left minus right and `magY` = above minus below, the gradient is `(-magX, -magY)` in raster coordinates. Taking the absolute value picks the diagonal from the sign of `magX` alone, so whenever `magY > 0` the codes 45 and 135 are swapped and suppression compares the two neighbours along the edge | a 3 by 3 raster whose only non-zero density is 1 at the top-left pixel: at the centre `magX == magY == 1`, the gradient points north-west, the code is 45, and suppression compares north-east with south-west | the code of the gradient line, `atan2(magY, -magX)` folded into `[0, PI)` by adding `PI`, so that suppression compares across the edge | not executed | Orientation.AsWrittenCounterexample | Orientation.CorrectedAngle |

`Orientation.AsWrittenDiagonalSwapped` proves the as-written swap for every
gradient with `magY > 0`. `Orientation.CorrectedAcrossEdge` and
`Orientation.CorrectedSuppressionAcrossEdge` prove that the corrected code,
fed to suppression as its angle map, compares across the edge.
`Sobel.SobelFilter` and `Canny.Process` keep the code as written, so that they
model what the program does.
