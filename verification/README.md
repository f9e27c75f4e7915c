# Verified model of the Avarta integration library

A Dafny model of three parts of the library, with proofs about it.

**Curve25519** (`bigint.c`, `fe25519.c`, `curve25519.c`). Byte arrays, carry and borrow loops, two
Karatsuba levels, lazy reduction, the ladder with delayed swaps. The main theorem is that
`crypto_scalarmult_curve25519` writes exactly the bytes of X25519 as section 5 of RFC 7748 defines it,
for all inputs. It needs neither the primality of p nor any curve theory. Below it stand exact integer
contracts for every layer; above it, what the ladder computes for any family of multiples.

**AES-256 without tables** (`aes256.cpp`), and the block loops and UTF-8 check of `skm.cpp`. Both
directions are proved equal to Cipher and InvCipher of FIPS 197 with the stored key schedule, although
the code keeps only a 32-byte window of it, and the two are proved to undo each other. The block loops
then give the exact condition for a text to come back.

**The Volley pipeline** (`RequestQueue`, `CacheDispatcher`, `NetworkDispatcher`, `ExecutorDelivery`).
Threads interleave step by step; a step is one action on shared state. The results hold for every run of
one cache dispatcher, any number of network dispatchers, any number of delivery threads that take posted
deliveries in any order, and a user who adds and cancels at any time.

## Layout

| files | content |
|---|---|
| `Bytes`, `Bits` | value of a little-endian byte string; bit operations on numbers |
| `Bigint`, `Karatsuba` | `bigint.c` |
| `Field25519`, `Fe25519`, `FePower` | residues modulo p; `fe25519.c`; its two power chains |
| `Rfc7748`, `Curve25519` | the specification of X25519; `curve25519.c` |
| `Ladder`, `CurveLaw` | the plain ladder; its step as the chord and tangent law of the curve |
| `Fermat`, `X25519Facts` | inverses for a prime p, consequences |
| `Gf256`, `Fips197`, `CipherFacts` | GF(2^8); the specification of AES-256; both directions undone |
| `SBoxTables`, `Fips197Example` | both S-boxes as tables; the example of appendix C.3 of FIPS 197 |
| `MixFast`, `KeyWindow`, `Aes256`, `Aes256Calls` | the shared sums of mixColumns, the 32-byte window, `aes256.cpp`, several calls on one context |
| `Utf8`, `Skm` | `skm.cpp` |
| `Volley`, `VolleyInvariant`, `VolleyRuns` | the request pipeline: its steps, what they keep, what holds in every run |
| `VolleyServe`, `VolleyOrigin` | what each thread makes of a request; where callbacks come from |
| `VolleyFuture`, `VolleyStranding`, `VolleyLoss` | what can still happen to a request, to those staged under a key, and which faults lose them |

Numbers: the curve code works on arrays of bytes 0 to 255 with every 8- and 16-bit truncation written
out; the AES code works on `bv8`. An in-place C routine is a method that modifies its arrays and is
proved against a function of their old contents. Long C bodies are cut into stages, one method each.

## Where code and comments differ

- `fe25519.c:103` asks whether two bytes are enough for the last carry: they are.
- `bigint.c:63-69` computes the middle term of `bigint_mul16c` through a signed `u`; its negative case is
  never reached from `bigint_mul32`, and the function is right for all top bytes whose sum is at most 254.
- `Request.java:338-343` promises no callback after a cancel. The code keeps this unless the delivery
  has already passed its check: `CancelDecides` states the exact condition, `CallAfterCancel` is a run
  that fails.
- `CacheDispatcher.java:164-167` catches an exception and goes on, and the request is never finished.
  If it was the last unfinished cacheable request under its key that was not staged, and the key was
  still taken, then those staged under the key and every later cacheable one wait for good; otherwise
  the key is unharmed. `StepLoses` and `StepStrands` state exactly which steps do this,
  `FaultlessRuns` that no run without a fault does, `FaultStrands` gives a run that does, and
  `StrandedForever` says that nothing repairs it.
- `CacheDispatcher.java:98` reads a null request when the wait is interrupted, so the thread ends
  whether or not `quit` was called; see `InterruptEndsCache`.
- `skm.cpp:98-111` leaves old bytes in the buffer behind a last block that is not full. Only those of
  the stack can come from outside, and they show in a decrypted block exactly for 1 to 15 bytes; later blocks
  see the block decrypted before them. The model carries the bytes along for every length.

## Model

| member | source | states |
|---|---|---|
| Bigint.BigintAdd | avartaIntegration-library/jni/bigint.c:11-22 | The bytes written and the returned carry (0 or 1) are together exactly a + b, also when r is a or b; nothing else in r changes. |
| Bigint.BigintSub | avartaIntegration-library/jni/bigint.c:24-35 | The bytes written plus b equal a plus the returned borrow (0 or 1) at the next byte, also when r is a or b; the 16-bit wrap of the difference is modelled and its bit 15 is the borrow. |
| Bigint.AccumulatorFits | avartaIntegration-library/jni/bigint.c:47 | The 16-bit accumulator of the multiplication never overflows, and it reaches 65535 exactly when every operand is 255: the bound is tight. |
| Bigint.MulRow | avartaIntegration-library/jni/bigint.c:44-51 | One pass of the inner loop adds the row a[i]*b to the bytes below it and leaves the carry in the byte above, with no loss. |
| Bigint.RowsAreProduct | avartaIntegration-library/jni/bigint.c:44-51 | The rows summed at their offsets are the product. |
| Bigint.BigintMul | avartaIntegration-library/jni/bigint.c:37-52 | For every length, r receives the exact product of a and b in 2*len bytes; bytes of r outside are unchanged. |
| Bigint.BigintCmov | avartaIntegration-library/jni/bigint.c:121-128 | A flag of 0 keeps r, a flag of 1 copies x, and any other flag gives the masked mix of the two, byte by byte. |
| Karatsuba.AddMiddle | avartaIntegration-library/jni/bigint.c:71-77 | Adding the middle term at its offset and carrying up to the top adds exactly that term to the whole number; the carry out is returned. |
| Karatsuba.SubLow | avartaIntegration-library/jni/bigint.c:89 | Subtracting the low product in place, with the borrow taken from the byte above, subtracts the number exactly whenever the difference is not negative. |
| Karatsuba.MiddleTerm | avartaIntegration-library/jni/bigint.c:54-98 | (a0 + a1)(b0 + b1) minus both outer products is the middle term of the product. |
| Karatsuba.Recombine | avartaIntegration-library/jni/bigint.c:80-118 | Low product, middle term at n bytes and high product at 2n bytes are the product of the two numbers. |
| Karatsuba.BigintMul16 | avartaIntegration-library/jni/bigint.c:80-98 | Exact 256-bit product of any two 128-bit numbers; the middle term does not underflow and no byte truncation loses anything. |
| Karatsuba.OnlyLow17Matter | avartaIntegration-library/jni/bigint.c:57-70 | Because the middle term is below 2^136, the low 17 bytes of t decide it: what the lines do to t[17], and the byte r[33] left out of the second subtraction, do not show; with top bytes of at most 1 the signed u is never negative. |
| Karatsuba.Middle16c | avartaIntegration-library/jni/bigint.c:61-70 | The 17-byte middle term is exact for top bytes whose sum is at most 254, and the negative case of u is not reached when both are at most 1. |
| Karatsuba.BigintMul16c | avartaIntegration-library/jni/bigint.c:54-78 | Exact product of two 17-byte numbers whose top bytes sum to at most 254, a wider range than the 0 or 1 its one caller passes; the negative case of u is not reached for 0 or 1. |
| Karatsuba.NoCarryOut | avartaIntegration-library/jni/bigint.c:92-97 | The carry that leaves the last loop is zero, so nothing is dropped at the top. |
| Karatsuba.BigintMul32 | avartaIntegration-library/jni/bigint.c:100-118 | r receives the exact 512-bit product of any two 256-bit numbers through both Karatsuba levels. |
| Fe25519.FeAdd | avartaIntegration-library/jni/fe25519.c:38-53 | For all unreduced a and b (r may be either) the result is congruent to a + b modulo p; the last byte does not overflow. |
| Fe25519.FoldTopBits | avartaIntegration-library/jni/fe25519.c:45-52 | Folding carry and bit 255 back with the factor 19 keeps the residue of the 257-bit sum and needs no further carry. |
| Fe25519.FeSub | avartaIntegration-library/jni/fe25519.c:55-77 | For all unreduced a and b (r may be either) the result is congruent to a - b modulo p. |
| Fe25519.NoThirdCorrection | avartaIntegration-library/jni/fe25519.c:70-76 | The second correction never borrows out of its three bytes, so the two corrections keep the residue. |
| Fe25519.FoldHigh | avartaIntegration-library/jni/fe25519.c:89-93 | The folding pass stores t_low + 38*t_high exactly, with a carry of at most 38; UV stays within 16 bits. |
| Fe25519.TwoBytesAreEnough | avartaIntegration-library/jni/fe25519.c:94-108 | Of the two remaining passes the first carries out at most 1, and then the last carry dies within the second byte: the answer to the question in the comment at line 103 is yes. |
| Fe25519.FeMul | avartaIntegration-library/jni/fe25519.c:79-110 | For all unreduced a and b, r is congruent to a*b modulo p, also when r is a or b. |
| Fe25519.FeSquare | avartaIntegration-library/jni/fe25519.c:112-115 | r is congruent to the square of the old x, also when r is x. |
| Fe25519.FeNeg | avartaIntegration-library/jni/fe25519.c:162-167 | r is congruent to -x modulo p. |
| Fe25519.SubtractPOnce | avartaIntegration-library/jni/fe25519.c:195-196 | One conditional subtraction subtracts p exactly when the value is at least p. |
| Fe25519.FeFreeze | avartaIntegration-library/jni/fe25519.c:191-199 | Two conditional subtractions bring every 256-bit value to its residue in [0, p). |
| Fe25519.FeUnpack | avartaIntegration-library/jni/fe25519.c:174-179 | The 32 bytes with bit 255 cleared. |
| Fe25519.FePack | avartaIntegration-library/jni/fe25519.c:181-188 | The bytes written are the canonical little-endian encoding of the residue of x; x is unchanged. |
| Fe25519.FeIsEqVartime | avartaIntegration-library/jni/fe25519.c:150-160 | Returns 1 exactly when the two residues are equal, whatever representatives are held. |
| Fe25519.FeGetParity | avartaIntegration-library/jni/fe25519.c:132-137 | The parity of the residue, not of the representative. |
| Fe25519.PBytesAreP | avartaIntegration-library/jni/fe25519.c:21-22 | The constant bytes are 2^255 - 19. |
| X25519Facts.CanonicalBytes | avartaIntegration-library/jni/fe25519.c:181-188 | Two packed residues have the same bytes exactly when they are equal. |
| FePower.RunThenMul | avartaIntegration-library/jni/fe25519.c:225-258 | A run of n squarings of x^(2^m - 1), in the alternating two-temporary loop, times x^(2^n - 1) is x^(2^(m+n) - 1). |
| FePower.JoinRuns | avartaIntegration-library/jni/fe25519.c:225-258 | The law behind each loop: squaring x^(2^n - 1) m times and multiplying by x^(2^m - 1) joins the two runs of ones of the exponent. |
| FePower.Power250 | avartaIntegration-library/jni/fe25519.c:223-258 | All five middle loops together give x^(2^250 - 1). |
| FePower.FeInvert | avartaIntegration-library/jni/fe25519.c:201-266 | r becomes x^(p-2) = x^(2^255-21), also when r is x. |
| FePower.FePow2523 | avartaIntegration-library/jni/fe25519.c:268-320 | r becomes x^(2^252-3), also when r is x. |
| Fermat.Fermat | avartaIntegration-library/jni/fe25519.c:201-266 | If p is prime, a^(p-1) is 1 for every a not divisible by p; proved by permuting the nonzero residues. |
| Fermat.InverseIs | avartaIntegration-library/jni/fe25519.c:201-266 | If p is prime, the power that the inversion computes times x is 1 for every nonzero x. |
| Curve25519.WorkCSwap | avartaIntegration-library/jni/curve25519.c:11-21 | A flag of 0 leaves the two working points, a flag of 1 exchanges them, both coordinates each, whatever the scratch element held. |
| Curve25519.SameMiddle | avartaIntegration-library/jni/curve25519.c:48-51 | The code's BB + 121666*E equals the AA + 121665*E of section 5 of RFC 7748. |
| Curve25519.LadderStep | avartaIntegration-library/jni/curve25519.c:25-52 | On the residues of the work array one ladder step is the loop body of section 5 of RFC 7748; x0 is unchanged. |
| Curve25519.BitOfBytes | avartaIntegration-library/jni/curve25519.c:73 | Bit j of byte i is bit 8i + j of the number. |
| Curve25519.LadderBit | avartaIntegration-library/jni/curve25519.c:73-78 | One pass of the inner loop takes the RFC loop state after bit 8i + j + 1 to the one after bit 8i + j, prevbit being the pending swap. |
| Curve25519.MLadder | avartaIntegration-library/jni/curve25519.c:54-84 | After the nested loops xr and zr are x_2 and z_2 of the RFC loop over bits 254 to 0, before any last swap. |
| Curve25519.EvenNeedsNoLastSwap | avartaIntegration-library/jni/curve25519.c:82-83 | For every even scalar the omitted last swap would do nothing, so the loop state is already the answer. |
| Curve25519.Clamp | avartaIntegration-library/jni/curve25519.c:94-98 | The three masks on bytes 0 and 31 give decodeScalar25519 of section 5 of RFC 7748. |
| Curve25519.DecodedIsEven | avartaIntegration-library/jni/curve25519.c:96-98 | A clamped scalar is divisible by 8 and lies in [2^254, 2^255). |
| X25519Facts.ScalarBits | avartaIntegration-library/jni/curve25519.c:96-98 | Bits 0, 1, 2 and all from 255 on of the scalar used are clear, bit 254 is set, and every other is that of the input. |
| Curve25519.CryptoScalarmult | avartaIntegration-library/jni/curve25519.c:87-108 | For every 32-byte scalar and every 32-byte u-coordinate the 32 output bytes are X25519 of section 5 of RFC 7748; r may be s or p. |
| X25519Facts.NonCanonicalPoint | avartaIntegration-library/jni/curve25519.c:102-106 | u and u + p give the same output, and bit 255 of u is ignored. |
| X25519Facts.ZeroGivesZero | avartaIntegration-library/jni/curve25519.c:103-106 | The point 0 gives 0 for every scalar, with no hypothesis on p. |
| Ladder.DelayedSwap | avartaIntegration-library/jni/curve25519.c:69-81 | After each bit the working pair is that of the textbook ladder with one branch per bit, exchanged exactly when prevbit is 1. |
| Ladder.StepIs | avartaIntegration-library/jni/curve25519.c:25-52 | One step is the doubling of the first point and the differential addition of the two. |
| CurveLaw.DoubleIsCurve | avartaIntegration-library/jni/curve25519.c:33-51 | The doubling of x : z is (x^2 - z^2)^2 : 4xz(x^2 + 486662xz + z^2) modulo p, the formula of the curve. |
| CurveLaw.AddIsCurve | avartaIntegration-library/jni/curve25519.c:38-46 | The differential addition is 4(xx' - zz')^2 : 4u(x'z - z'x)^2 modulo p. |
| CurveLaw.TangentLaw | avartaIntegration-library/jni/curve25519.c:33-51 | For every affine point of v^2 = u^3 + 486662u^2 + u the doubling gives the coordinate that the tangent law gives, denominators multiplied out. |
| CurveLaw.ChordLaw | avartaIntegration-library/jni/curve25519.c:38-46 | For any two affine points of the curve, given the coordinate of their difference by the chord law, the addition gives that of their sum by the chord law, denominators multiplied out. |
| Ladder.PlainIsFamily | avartaIntegration-library/jni/curve25519.c:69-81 | For any family M closed under the step up to unit scaling, the plain ladder holds (M(n), M(n+1)) for the bits n read so far. |
| Ladder.LadderIsFamily | avartaIntegration-library/jni/curve25519.c:54-84 | Hence 255 steps of the swapping loop end at M(k) for an even k, and at M(k+1) for an odd one. |
| X25519Facts.MultiplesAreFamily | avartaIntegration-library/jni/curve25519.c:25-84 | If p is prime, the multiples built by the step itself are such a family for every u not 0. |
| X25519Facts.ScalarMultIsMultiple | avartaIntegration-library/jni/curve25519.c:87-108 | If p is prime, the result for u not 0 and any scalar k below 2^255 is the affine coordinate of the k-fold of u. |
| Aes256.GfAlog | avartaIntegration-library/jni/aes256.cpp:104-111 | The loop computes the power of 3 in GF(2^8). |
| Aes256.GfLog | avartaIntegration-library/jni/aes256.cpp:114-124 | For x not 0 the least exponent, below 255, whose power of 3 is x; for 0 the counter wraps to 0. |
| Gf256.LogExists | avartaIntegration-library/jni/aes256.cpp:114-124 | 3 generates: every nonzero byte is one of its first 255 powers, so the search ends. |
| Gf256.AlogAdds | avartaIntegration-library/jni/aes256.cpp:104-131 | The product of powers of 3 in GF(2^8) is the power of the sum. |
| Gf256.InverseByLog | avartaIntegration-library/jni/aes256.cpp:128-131 | The power 255 - l of 3 is the inverse of the power l. |
| Aes256.GfMulInv | avartaIntegration-library/jni/aes256.cpp:128-131 | The multiplicative inverse of section 4.2 of FIPS 197, with 0 for 0. |
| Gf256.InverseOfInverse | avartaIntegration-library/jni/aes256.cpp:128-131 | Inverting twice gives the byte back, including 0. |
| Aes256.RjSBox | avartaIntegration-library/jni/aes256.cpp:134-143 | The S-box of section 5.1.1 of FIPS 197: inverse, then the affine map. |
| Aes256.RjSBoxInv | avartaIntegration-library/jni/aes256.cpp:146-155 | The inverse S-box of section 5.3.2 of FIPS 197. |
| CipherFacts.SBoxes | avartaIntegration-library/jni/aes256.cpp:134-155 | The two S-boxes undo each other on every byte, in both orders. |
| SBoxTables.SBoxIsTable | avartaIntegration-library/jni/aes256.cpp:29-62 | The S-box computed through logarithms is the table of the other build, for all 256 bytes. |
| SBoxTables.InvSBoxIsTable | avartaIntegration-library/jni/aes256.cpp:63-96 | So is the inverse S-box. |
| Aes256.SubBytesIn | avartaIntegration-library/jni/aes256.cpp:166-171 | SubBytes on the first 16 bytes; the rest of the buffer is unchanged. |
| Aes256.SubBytesInvIn | avartaIntegration-library/jni/aes256.cpp:174-179 | InvSubBytes on the first 16 bytes; the rest of the buffer is unchanged. |
| Aes256.AddRoundKeyCpy | avartaIntegration-library/jni/aes256.cpp:190-195 | The block is added to the key and all 32 key bytes are copied. |
| Aes256.ShiftRowsIn | avartaIntegration-library/jni/aes256.cpp:199-208 | The rotations and exchanges in place are ShiftRows of section 5.1.2 of FIPS 197. |
| Aes256.ShiftRowsInvIn | avartaIntegration-library/jni/aes256.cpp:211-220 | They are InvShiftRows of section 5.3.1 of FIPS 197. |
| CipherFacts.ShiftRowsUndone | avartaIntegration-library/jni/aes256.cpp:199-220 | The two undo each other. |
| CipherFacts.ShiftRowsByIndex | avartaIntegration-library/jni/aes256.cpp:199-220 | Row r of column c comes from column c + r modulo 4, and the inverse puts it back. |
| Gf256.XTimeLinear | avartaIntegration-library/jni/aes256.cpp:160-163 | xtime is linear over xor. |
| MixFast.FastMixIs | avartaIntegration-library/jni/aes256.cpp:227-233 | The shared-sum form of a column is its product with the fixed polynomial of section 5.1.3 of FIPS 197. |
| MixFast.FastInvMixIs | avartaIntegration-library/jni/aes256.cpp:241-249 | The shared-sum form of the inverse is the product with the polynomial of section 5.3.3 of FIPS 197. |
| Aes256.MixColumnsIn | avartaIntegration-library/jni/aes256.cpp:223-234 | The loop over the four columns is MixColumns; the rest of the buffer is unchanged. |
| Aes256.MixColumnsInvIn | avartaIntegration-library/jni/aes256.cpp:237-250 | The loop over the four columns is InvMixColumns; the rest of the buffer is unchanged. |
| CipherFacts.CirculantLinear | avartaIntegration-library/jni/aes256.cpp:223-250 | Multiplying a column by a fixed polynomial is linear over xor. |
| CipherFacts.MixColumnsUndone | avartaIntegration-library/jni/aes256.cpp:223-250 | InvMixColumns undoes MixColumns on every state, and the reverse. |
| Aes256.ExpandEncKey | avartaIntegration-library/jni/aes256.cpp:253-273 | The in-place expansion takes the 32-byte window one step on, and rcon to the next constant. |
| Aes256.ExpandDecKey | avartaIntegration-library/jni/aes256.cpp:276-296 | The in-place expansion backwards gives the window and rcon of one step before. |
| CipherFacts.RotWordIsProduct | avartaIntegration-library/jni/aes256.cpp:257-260 | The turned word of the schedule is the product with x^3 by which section 5.2 of FIPS 197 defines it. |
| Fips197Example.ScheduleWords | avartaIntegration-library/jni/aes256.cpp:253-273 | For the key 00 .. 1f the words 8, 9, 12 and 59 of the schedule are those of the standard, in literals. |
| KeyWindow.PreviousOfNext | avartaIntegration-library/jni/aes256.cpp:253-296 | Going back undoes going on, for every window and every round constant. |
| KeyWindow.NextOfPrevious | avartaIntegration-library/jni/aes256.cpp:253-296 | Going on undoes going back, for every window and every round constant. |
| KeyWindow.StepBack | avartaIntegration-library/jni/aes256.cpp:23-24 | The macros F and FD undo each other on every byte. |
| KeyWindow.WindowSteps | avartaIntegration-library/jni/aes256.cpp:253-273 | Words 8n to 8n+7 of KeyExpansion (section 5.2 of FIPS 197) become words 8n+8 to 8n+15 in one step. |
| KeyWindow.Halves | avartaIntegration-library/jni/aes256.cpp:329-330 | The left and right half of window n are the round keys 2n and 2n+1 of the stored schedule. |
| KeyWindow.RconOfEight | avartaIntegration-library/jni/aes256.cpp:347 | The constant 0x80, with which decryption starts, is the one after seven expansions. |
| Aes256.Context.Init | avartaIntegration-library/jni/aes256.cpp:300-307 | enckey is the key and deckey the last window of its schedule. |
| Aes256.Context.Done | avartaIntegration-library/jni/aes256.cpp:310-316 | All three keys are zero. |
| Aes256.Context.RoundKeyForward | avartaIntegration-library/jni/aes256.cpp:329-330 | For round i the window moves on or not by the parity of i, and round key i of the schedule is added. |
| Aes256.Context.EncryptEcb | avartaIntegration-library/jni/aes256.cpp:319-336 | On the block, Cipher of section 5.1 of FIPS 197 with the stored schedule of enckey; only buf and the working key change, so enckey and deckey stay for any later call. |
| Aes256.Context.RoundKeyBackward | avartaIntegration-library/jni/aes256.cpp:349-354 | For round i of the inverse the window moves back or not by the parity of i, and round key i is added. |
| Aes256.Context.DecryptEcb | avartaIntegration-library/jni/aes256.cpp:339-360 | On the block, InvCipher of section 5.3 of FIPS 197 with the stored schedule of enckey; only buf and the working key change. |
| CipherFacts.InvCipherOfCipher | avartaIntegration-library/jni/aes256.cpp:319-360 | Decryption undoes encryption for every key and block. |
| CipherFacts.CipherOfInvCipher | avartaIntegration-library/jni/aes256.cpp:319-360 | Encryption undoes decryption for every key and block. |
| Fips197Example.Example | avartaIntegration-library/jni/aes256.cpp:319-336 | For the key and the block of appendix C.3 of FIPS 197 the cipher gives the result printed there; the proof passes through all windows and round states in literals. |
| Aes256Calls.EncryptExample | avartaIntegration-library/jni/aes256.cpp:300-336 | aes256_init and aes256_encrypt_ecb on those bytes leave exactly the 16 bytes of the standard. |
| Aes256Calls.Perform | avartaIntegration-library/jni/aes256.cpp:319-360 | Any sequence of encryptions and decryptions on one context gives what the ciphers of FIPS 197 with its key give in turn, and leaves enckey, deckey and the rest of the buffer as they were. |
| Aes256Calls.UndoneCallsVanish | avartaIntegration-library/jni/aes256.cpp:319-360 | A call and its inverse anywhere in such a sequence can be left out without changing the result. |
| Aes256Calls.EncryptDecrypt | avartaIntegration-library/jni/aes256.cpp:319-360 | aes256_decrypt_ecb after aes256_encrypt_ecb leaves the whole buffer as it was. |
| Skm.Load | avartaIntegration-library/jni/skm.cpp:100-103 | The first block of what is left of the source, over the old bytes of the buffer where the source ends. |
| Skm.EncryptBlocks | avartaIntegration-library/jni/skm.cpp:166-204 | The bytes returned are every block of the source, the last one filled up with zeros, each encrypted with the key. |
| Skm.EncryptedLength | avartaIntegration-library/jni/skm.cpp:173-180 | The output length is the input length rounded up to a multiple of 16. |
| Skm.EncryptedBlock | avartaIntegration-library/jni/skm.cpp:182-195 | Bytes 16i to 16i+15 of the output are the cipher of the 16 input bytes at 16i, with a literal zero for every byte past the end. |
| Skm.LastBlockBack | avartaIntegration-library/jni/skm.cpp:183-191 | For a length that is not a multiple of 16, the inverse cipher takes the last block to the rest of the input followed by zeros. |
| Skm.DecryptBlocks | avartaIntegration-library/jni/skm.cpp:91-116 | The text returned is every block, over the bytes the buffer held, decrypted and cut at its first zero; none is returned exactly when that is not accepted as UTF-8; for every input length, the initial content of the stack buffer being a parameter. |
| Skm.DecryptedBlock | avartaIntegration-library/jni/skm.cpp:98-110 | What one block adds to the text are its decrypted bytes up to the first zero, or all 16. |
| Skm.DecryptedFirstBlock | avartaIntegration-library/jni/skm.cpp:98-111 | The blocks are handled from the left, each over the decrypted bytes of the one before. |
| Skm.RoundTripExactly | avartaIntegration-library/jni/skm.cpp:98-195 | Decrypting what was encrypted gives the bytes back exactly when none of them is zero, for every length. |
| Skm.TextComesBack | avartaIntegration-library/jni/skm.cpp:91-195 | decrypt returns the encrypted text exactly for texts without a zero byte that the check accepts. |
| Skm.DecryptedHasNoZero | avartaIntegration-library/jni/skm.cpp:109-110 | No zero byte comes out of decryption, whatever the input. |
| Skm.WholeBlockForgets | avartaIntegration-library/jni/skm.cpp:98-102 | With a whole first block, or no byte at all, the old content of the buffer does not show, whatever the length. |
| Skm.ShortBlockShows | avartaIntegration-library/jni/skm.cpp:98-104 | With a shorter one it does: two buffers give the same decrypted block exactly when they agree behind the input. |
| Utf8.LeadLength | avartaIntegration-library/jni/skm.cpp:22-38 | The branches on the lead byte find the number of bytes that must follow, or prove that the text is not accepted. |
| Utf8.CheckIsValid | avartaIntegration-library/jni/skm.cpp:19-45 | True exactly for the concatenations of a byte up to 7F, or a lead byte C0-DF, E0-EF or F0-F7 with its 1, 2 or 3 bytes 80-BF, none of them ED A0..BF. |
| Utf8.GroupFirst | avartaIntegration-library/jni/skm.cpp:21-43 | A text is accepted exactly when its first group is complete and the rest is accepted. |
| Utf8.AcceptedInRanges | avartaIntegration-library/jni/skm.cpp:21-43 | Acceptance read from the left in literal ranges: both directions for each of the four kinds of groups, with the overlong and too large ones let through and only ED A0..BF shut out. |
| Utf8.LooseGroupsAccepted | avartaIntegration-library/jni/skm.cpp:24-37 | C0 80, E0 80 80, F0 80 80 80 and F7 BF BF BF are accepted, ED A0 80 and F8 are not. |
| Utf8.AfterAccepted | avartaIntegration-library/jni/skm.cpp:19-45 | After an accepted text another one is accepted exactly when their concatenation is. |
| Utf8.WhatIsLetThrough | avartaIntegration-library/jni/skm.cpp:24-37 | A group is well-formed by section 4 of RFC 3629 exactly when it is accepted and its code point is neither overlong nor above 10FFFF. |
| Utf8.WellFormedIsAccepted | avartaIntegration-library/jni/skm.cpp:19-45 | Every string well-formed by section 4 of RFC 3629 is accepted. |
| VolleyInvariant.CacheKeeps | avartaIntegration-library/src/main/java/com/android/volley/CacheDispatcher.java:104-167 | Every action of the cache dispatcher, throws included, keeps the invariant: the queues, the held requests, the staged ones, and what the place of each request says about its events. |
| VolleyInvariant.NetKeeps | avartaIntegration-library/src/main/java/com/android/volley/NetworkDispatcher.java:104-128 | Every action of a network dispatcher up to the parse keeps it, among them the suppressed 304. |
| VolleyInvariant.NetPostKeeps | avartaIntegration-library/src/main/java/com/android/volley/NetworkDispatcher.java:131-158 | Every action after the parse keeps it: cache write, mark, post, and both error paths. |
| VolleyInvariant.DeliveryKeeps | avartaIntegration-library/src/main/java/com/android/volley/ExecutorDelivery.java:90-116 | Every action of a posted delivery keeps it: cancel check, callback, finish, and the follow-up that queues for the network. |
| VolleyInvariant.FinishKeeps | avartaIntegration-library/src/main/java/com/android/volley/RequestQueue.java:275-301 | Finishing a request and releasing those staged under its key keeps it. |
| VolleyInvariant.AddKeeps | avartaIntegration-library/src/main/java/com/android/volley/RequestQueue.java:227-266 | Adding a request, to the network, to the cache queue or to the staged ones, keeps it. |
| VolleyInvariant.NextKeeps | avartaIntegration-library/src/main/java/com/android/volley/CacheDispatcher.java:90-169 | Every step of every thread, every cancel and every interrupt keeps it. |
| VolleyServe.LookupDecides | avartaIntegration-library/src/main/java/com/android/volley/CacheDispatcher.java:113-149 | The lookup sends a request to the network exactly for a missing or expired entry, and to the parser exactly for a fresh or soft-expired one. |
| VolleyServe.CacheServes | avartaIntegration-library/src/main/java/com/android/volley/CacheDispatcher.java:130-162 | A hit ends as one posted response, marked as delivered: final if fresh, intermediate with the follow-up if soft-expired, with the success of the parse. |
| VolleyServe.NetworkServes | avartaIntegration-library/src/main/java/com/android/volley/NetworkDispatcher.java:116-140 | An answer ends as one posted final response marked as delivered, or, for a 304 after a delivery, as a finish without one. |
| VolleyServe.NetworkFails | avartaIntegration-library/src/main/java/com/android/volley/NetworkDispatcher.java:141-158 | An exception at the request, the parse or the cache write ends as one posted error, without marking the request. |
| VolleyServe.DeliveryServes | avartaIntegration-library/src/main/java/com/android/volley/ExecutorDelivery.java:90-116 | A delivery calls back and finishes, or calls back and queues for the network if intermediate, or only finishes if canceled. |
| VolleyServe.CacheChecks | avartaIntegration-library/src/main/java/com/android/volley/CacheDispatcher.java:107-111 | A canceled request taken by the cache dispatcher is finished, any other looked up. |
| VolleyServe.NetChecks | avartaIntegration-library/src/main/java/com/android/volley/NetworkDispatcher.java:107-112 | A canceled request taken by a network dispatcher is finished, any other performed. |
| VolleyServe.CacheFault | avartaIntegration-library/src/main/java/com/android/volley/CacheDispatcher.java:164-167 | An exception at the cache dispatcher loses the request and not the thread; an error loses both. |
| VolleyServe.NetInterrupt | avartaIntegration-library/src/main/java/com/android/volley/NetworkDispatcher.java:95-102 | An interrupted idle network dispatcher stops exactly if it was asked to quit. |
| VolleyServe.AddDecides | avartaIntegration-library/src/main/java/com/android/volley/RequestQueue.java:227-266 | Which queue or list a new request joins, and what it takes or keeps of its key. |
| VolleyServe.FinishReleases | avartaIntegration-library/src/main/java/com/android/volley/RequestQueue.java:275-301 | A finish releases exactly those staged under the key of a cacheable request, and removes the request from the current ones. |
| VolleyServe.CancelMarks | avartaIntegration-library/src/main/java/com/android/volley/Request.java:338-343 | A cancel changes nothing but the flag. |
| VolleyRuns.InOnePlace | avartaIntegration-library/src/main/java/com/android/volley/RequestQueue.java:64-79 | In every run, with any number of network and delivery threads, a request is in at most one queue, list or thread, once, and it is in one exactly while it is neither finished nor dropped. |
| VolleyRuns.EventsLegal | avartaIntegration-library/src/main/java/com/android/volley/ExecutorDelivery.java:90-116 | In every run a request finishes at most once, has no callback after that, has at most two callbacks, and the second one only after an intermediate one and never from a 304. |
| VolleyOrigin.CallbackOrigin | avartaIntegration-library/src/main/java/com/android/volley/ExecutorDelivery.java:97-102 | In every run a callback has its origin: a cached one in a lookup that found the entry fresh (soft-expired if intermediate), a network one in an answer with the same 304 flag, each parsed with the success it carries, and an error in a fault of the network path, never as a success. |
| VolleyRuns.FinishExplained | avartaIntegration-library/src/main/java/com/android/volley/Request.java:221-225 | In every run a finish has its reason: a final callback just before, a 304 after exactly one callback, an intermediate one, or a cancel, and before a cancel only intermediate callbacks. |
| VolleyRuns.CurrentIsUnfinished | avartaIntegration-library/src/main/java/com/android/volley/RequestQueue.java:64-69 | In every run the set of current requests holds exactly those added and not finished; a dropped request stays in it. |
| VolleyFuture.NothingAfterTheEnd | avartaIntegration-library/src/main/java/com/android/volley/Request.java:221-225 | Once a request has finished or been dropped, no continuation adds an event to it. |
| VolleyFuture.CancelDecides | avartaIntegration-library/src/main/java/com/android/volley/Request.java:338-343 | A canceled request gets a further callback in some continuation exactly when a delivery had already passed its cancel check. |
| VolleyFuture.CancelSilences | avartaIntegration-library/src/main/java/com/android/volley/Request.java:338-343 | In every other state no continuation calls back a canceled request. |
| VolleyFuture.CallAfterCancel | avartaIntegration-library/src/main/java/com/android/volley/Request.java:338-343 | A concrete run, for any thread counts above 0, whose request is canceled without a callback so far and is called back after that. |
| VolleyStranding.StagedHasLeader | avartaIntegration-library/src/main/java/com/android/volley/RequestQueue.java:51-60 | While requests are staged under a key, an unfinished cacheable request that is not staged holds them back; they are stranded exactly when no cacheable request under the key stands at any other spot, counted in the queues, lists and threads. |
| VolleyStranding.StrandedForever | avartaIntegration-library/src/main/java/com/android/volley/RequestQueue.java:286-300 | Requests staged under a stranded key stay staged without any event in every continuation. |
| VolleyStranding.FaultStrands | avartaIntegration-library/src/main/java/com/android/volley/CacheDispatcher.java:164-167 | One fault during the cache lookup of the first request under k strands a second one, for any number of threads. |
| VolleyLoss.StepLoses | avartaIntegration-library/src/main/java/com/android/volley/CacheDispatcher.java:104-167 | A step drops a request exactly when it is a fault of the thread that holds it at a stage where the code does not post an error for it: any exception in the cache dispatcher, an error in a network dispatcher, a fault in its error path, in a delivery or in the follow-up. |
| VolleyLoss.StepStrands | avartaIntegration-library/src/main/java/com/android/volley/RequestQueue.java:244-300 | A step strands a key exactly when it so drops a cacheable request under the taken key and every other unfinished one that is not staged was dropped before. |
| VolleyLoss.DroppedExactly | avartaIntegration-library/src/main/java/com/android/volley/NetworkDispatcher.java:104-158 | A run drops a request exactly when one of its steps is such a fault while the thread holds it. |
| VolleyLoss.StrandedExactly | avartaIntegration-library/src/main/java/com/android/volley/RequestQueue.java:244-300 | A run strands a key exactly when one of its steps drops the last leader of the key. |
| VolleyLoss.FaultlessRuns | avartaIntegration-library/src/main/java/com/android/volley/CacheDispatcher.java:90-169 | A run without faults drops no request and strands no key, and every request added has finished or stands at a spot. |
| VolleyLoss.InterruptEndsCache | avartaIntegration-library/src/main/java/com/android/volley/CacheDispatcher.java:93-103 | An interrupt while the cache dispatcher waits ends it whether or not it was asked to quit; what is in its queue stays there without any event in every continuation. |

## Left out

- Elliptic-curve group: the ladder's step is proved to be the chord and tangent law on affine points, and its multiples are built from it; that the law is associative is not proved, and with it not the agreement of two parties.
- Primality of 2^255 - 19: a hypothesis of the inverse and multiple theorems only.
- Karatsuba.BigintMul16c: asks for top bytes whose sum is at most 254; above that the middle term need no longer fit its 17 bytes, and no caller passes such values.
- fe25519_iszero and `equal` (`fe25519.c:26-32`, `139-148`): the loop skips byte 0 and the comparison does not return 1 on a match; nothing in the scalar multiplication calls them.
- crypto_scalarmult_curve25519_base (`curve25519.c:110-118`): the same function at the point 9.
- The wrappers of `ecdh_curve25519.c`: copies whose length is taken from the size of a pointer.
- Uninitialised memory: arrays start with arbitrary contents; only for the 17-byte buffer of decrypt, whose old bytes can show in the result, the content is a parameter.
- JNI glue, allocation, logging, and the key bytes written into `skm.cpp`: the key is a parameter, of which the first 32 bytes are used.
- NewStringUTF: the text is returned as bytes; modified UTF-8 is not modelled. `catch (...)` is not reached.
- The BACK_TO_TABLES variant of `aes256.cpp` beyond the equality of its tables with the computed S-boxes, constant time and side channels, `test.c`, the polarssl headers.
- Work arrays: the five elements of `work` are five fields of one object, so that aliasing between its elements is excluded by its invariant.
- Volley objects: requests, queues and threads are values in one state that each step maps to the next, since the results are about interleavings; the identity of the Java objects is the request number.
- Volley finish and add: each is one step; the three locked sections of RequestQueue.finish and the two of RequestQueue.add are not interleaved with other threads.
- Volley queues: bags without priority, and deliveries without order, which allows more runs than the code has.
- Volley contents: the cache's entries, the network's answers, parsed results and the throw of any call are free choices of a step; what the cache stores is not tracked.
- Volley faults: an exception, an error, a null response and an interrupted put are choices of a step at the stages that can meet them; the taking, the cancel checks and the finishing of a request, with its listeners, do not fail. A fault in a delivery ends its thread.
- Volley progress: safety only; that a request is eventually served is not claimed, since a throw can drop it.
- Retry policies, hashing, URL encoding, HTTP, Android views and the rest of Volley.
