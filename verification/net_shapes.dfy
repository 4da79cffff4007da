/** The convolutional network `Net` at the level of tensor shapes: which
    input shapes the forward pass accepts and what shape it returns, how
    many parameters the layers hold, the activation validator and the
    data-dependent hyperparameters. Tensor values are not modelled. */
module NetShapes {
  import opened Outcomes
  import opened Slicing

  /** A tensor shape: the list of its dimension sizes. */
  type Shape = seq<nat>

  /** Output channels of the three convolutions. */
  const Dim1: nat := 100
  const Dim2: nat := 50
  const Dim3: nat := 25

  /** A `Conv1d` layer with stride 1 and `padding='same'`. */
  datatype Conv1d = Conv1d(inChannels: nat, outChannels: nat, kernelSize: nat)

  /** A `Linear` layer. */
  datatype Linear = Linear(inFeatures: nat, outFeatures: nat)

  /** The nonlinearities `get_activation` can return. */
  datatype Activation = Relu | Tanh

  /** The constructor arguments of `Net`; the layers follow from them. */
  datatype Net = Net(featDim: nat, latentDim: int, nCnnLayers: int, encodeLen: nat, activation: string) {

    /** `conv1`: feat_dim -> 100 channels, kernel 4. */
    function Conv1(): Conv1d {
      Conv1d(featDim, Dim1, 4)
    }

    /** `conv2`: 100 -> 50 channels, kernel 8. */
    function Conv2(): Conv1d {
      Conv1d(Dim1, Dim2, 8)
    }

    /** `conv3`: 50 -> 25 channels, kernel 16. */
    function Conv3(): Conv1d {
      Conv1d(Dim2, Dim3, 16)
    }

    /** `fc`: the flattened 25 * encode_len features to encode_len outputs. */
    function Fc(): Linear {
      Linear(Dim3 * encodeLen, encodeLen)
    }
  }

  /** `permute(0, 2, 1)`: swaps the last two axes of a rank-3 tensor. */
  function Permute021(s: Shape): (r: Result<Shape>)
    ensures r.Ok? <==> |s| == 3
    ensures r.Ok? ==> |r.value| == 3 && r.value[0] == s[0] && r.value[1] == s[2] && r.value[2] == s[1]
  {
    if |s| == 3 then Ok([s[0], s[2], s[1]]) else Err(ShapeMismatch)
  }

  /** The total padding `padding='same'` adds for a stride-1 convolution
      with dilation 1: kernel - 1 entries, split between the two ends. */
  function SamePadding(kernelSize: nat): nat
    requires kernelSize >= 1
  {
    kernelSize - 1
  }

  /** The output length of a stride-1, dilation-1 convolution over a
      padded input of length n: one output per kernel position. */
  function ConvOutLength(n: nat, kernelSize: nat): nat
    requires n >= kernelSize
  {
    n - kernelSize + 1
  }

  /** A stride-1, `padding='same'` convolution over a (batch, channels,
      length) tensor. It needs the layer's input channels and a positive
      kernel; the padded length must reach the kernel size. The result keeps
      the batch, carries the output channels, and has the length the
      convolution formula gives, which is the input length: `same`
      padding keeps the length, and a zero-length input is rejected. */
  function ConvSame(c: Conv1d, s: Shape): (r: Result<Shape>)
    ensures r.Ok? <==> |s| == 3 && s[1] == c.inChannels && c.kernelSize >= 1 && s[2] >= 1
    ensures r.Ok? ==> |r.value| == 3 && r.value[0] == s[0] && r.value[1] == c.outChannels && r.value[2] == s[2]
  {
    if |s| != 3 || s[1] != c.inChannels || c.kernelSize == 0 then Err(ShapeMismatch)
    else
      var padded := s[2] + SamePadding(c.kernelSize);
      if padded < c.kernelSize then Err(ShapeMismatch)
      else Ok([s[0], c.outChannels, ConvOutLength(padded, c.kernelSize)])
  }

  /** `permute(0, 2, 1)` undoes itself: permuting the result again gives
      back the input shape. */
  lemma Permute021RoundTrip(s: Shape)
    ensures Permute021(s).Ok? ==> Permute021(Permute021(s).value) == Ok(s)
  {
    if |s| == 3 {
      assert s == [s[0], s[1], s[2]];
    }
  }

  /** A convolution applied to the result of the previous layer. */
  function ThenConv(r: Result<Shape>, c: Conv1d): Result<Shape> {
    if r.Err? then r else ConvSame(c, r.value)
  }

  /** `x[:, -k:, :]` on a (batch, length, channels) tensor: Python's slice
      keeps the last min(length, k) steps for k >= 1, and the whole length
      for k = 0 (as `-0` is `0`). */
  function KeepLastSteps(s: Shape, k: nat): (r: Shape)
    requires |s| == 3
    ensures |r| == 3 && r[0] == s[0] && r[2] == s[2]
    ensures r[1] == if k == 0 || k > s[1] then s[1] else k
  {
    [s[0], s[1] - SliceStart(s[1], -(k as int)), s[2]]
  }

  /** `Flatten()` of a (batch, length, channels) tensor. */
  function FlattenShape(s: Shape): (r: Shape)
    requires |s| == 3
    ensures |r| == 2 && r[0] == s[0] && r[1] == s[1] * s[2]
  {
    [s[0], s[1] * s[2]]
  }

  /** Flattening keeps every entry: the flattened tensor holds as many
      entries as the (batch, length, channels) tensor it came from. */
  lemma FlattenKeepsEntries(s: Shape)
    requires |s| == 3
    ensures Product(FlattenShape(s)) == Product(s)
  {
    assert s == [s[0], s[1], s[2]];
    ProductOfThree(s[0], s[1], s[2]);
    ProductOfTwo(s[0], s[1] * s[2]);
  }

  /** A linear layer applied to a (batch, features) tensor. */
  function LinearApply(l: Linear, s: Shape): (r: Result<Shape>)
    ensures r.Ok? <==> |s| == 2 && s[1] == l.inFeatures
    ensures r.Ok? ==> r.value == [s[0], l.outFeatures]
  {
    if |s| == 2 && s[1] == l.inFeatures then Ok([s[0], l.outFeatures]) else Err(ShapeMismatch)
  }

  /** `Net.forward` on shapes. It succeeds exactly on a (batch, T, feat_dim)
      input with T >= encode_len >= 1 and then returns (batch, encode_len):
      the convolutions keep T, the slice keeps min(T, encode_len) steps, and
      `fc` accepts only 25 * encode_len features. The ReLU keeps the shape,
      and the `activation` argument plays no part. */
  function Forward(net: Net, s: Shape): (r: Result<Shape>)
    ensures r.Ok? <==> |s| == 3 && s[2] == net.featDim && net.encodeLen >= 1 && s[1] >= net.encodeLen
    ensures r.Ok? ==> r.value == [s[0], net.encodeLen]
  {
    var x0 :- Permute021(s);
    var x3 :- ThenConv(ThenConv(ConvSame(net.Conv1(), x0), net.Conv2()), net.Conv3());
    var x4 := Permute021(x3).value;
    var x5 := KeepLastSteps(x4, net.encodeLen);
    var x6 := FlattenShape(x5);
    LinearApply(net.Fc(), x6)
  }

  /** Two networks that differ only in `activation` have the same forward
      pass. */
  lemma ForwardIgnoresActivation(net: Net, activation: string, s: Shape)
    ensures Forward(net, s) == Forward(net.(activation := activation), s)
  {
  }

  /** `get_activation`: "relu" and "tanh" name their nonlinearity, any other
      name is an invalid-configuration error. */
  function GetActivation(name: string): (r: Result<Activation>)
    ensures r.Ok? <==> name == "relu" || name == "tanh"
    ensures r == Ok(Relu) <==> name == "relu"
    ensures r == Ok(Tanh) <==> name == "tanh"
    ensures r.Err? ==> r.error == UnrecognizedActivation(name)
  {
    if name == "relu" then Ok(Relu)
    else if name == "tanh" then Ok(Tanh)
    else Err(UnrecognizedActivation(name))
  }

  /** `get_activation` is never consulted by the network: a name other than
      "relu" or "tanh" is an error when validated, yet the forward pass of
      a network carrying that name behaves as that of a "relu" network. */
  lemma ActivationNeverValidated(net: Net, s: Shape)
    ensures GetActivation(net.activation).Err? <==> net.activation != "relu" && net.activation != "tanh"
    ensures Forward(net, s) == Forward(net.(activation := "relu"), s)
    ensures GetActivation(net.(activation := "relu").activation) == Ok(Relu)
  {
    ForwardIgnoresActivation(net, "relu", s);
  }

  /** The shapes of the parameter tensors in registration order: weight and
      bias of conv1, conv2, conv3 and fc. */
  function ParamShapes(net: Net): seq<Shape> {
    [ [Dim1, net.featDim, 4], [Dim1],
      [Dim2, Dim1, 8], [Dim2],
      [Dim3, Dim2, 16], [Dim3],
      [net.encodeLen, Dim3 * net.encodeLen], [net.encodeLen] ]
  }

  /** The number of entries of a tensor of the given shape. */
  function Product(s: Shape): nat {
    if |s| == 0 then 1 else Product(s[..|s| - 1]) * s[|s| - 1]
  }

  /** The total number of entries over a list of tensor shapes. */
  function SumOfProducts(ps: seq<Shape>): nat {
    if |ps| == 0 then 0 else SumOfProducts(ps[..|ps| - 1]) + Product(ps[|ps| - 1])
  }

  /** The parameter count of the network in closed form:
      conv1 400 * feat_dim + 100, conv2 40050, conv3 20025,
      fc 25 * encode_len^2 + encode_len. */
  lemma ParamCountClosedForm(net: Net)
    ensures SumOfProducts(ParamShapes(net))
         == 400 * net.featDim + 25 * net.encodeLen * net.encodeLen + net.encodeLen + 60175
  {
    var ps := ParamShapes(net);
    var f := net.featDim;
    var e := net.encodeLen;
    ProductOfThree(Dim1, f, 4);
    ProductOfThree(Dim2, Dim1, 8);
    ProductOfThree(Dim3, Dim2, 16);
    ProductOfTwo(e, Dim3 * e);
    ProductOfOne(Dim1);
    ProductOfOne(Dim2);
    ProductOfOne(Dim3);
    ProductOfOne(e);
    assert ps[..7] == ps[..6] + [ps[6]];
    assert ps[..6][..5] == ps[..5] && ps[..5][..4] == ps[..4] && ps[..4][..3] == ps[..3];
    assert ps[..3][..2] == ps[..2] && ps[..2][..1] == ps[..1];
    assert SumOfProducts(ps[..1]) == 400 * f;
    assert SumOfProducts(ps[..2]) == 400 * f + 100;
    assert SumOfProducts(ps[..3]) == 400 * f + 40100;
    assert SumOfProducts(ps[..4]) == 400 * f + 40150;
    assert SumOfProducts(ps[..5]) == 400 * f + 60150;
    assert SumOfProducts(ps[..6]) == 400 * f + 60175;
    assert SumOfProducts(ps[..7]) == 400 * f + 60175 + 25 * e * e;
  }

  /** The entry count of a one-dimensional tensor. */
  lemma ProductOfOne(a: nat)
    ensures Product([a]) == a
  {
    assert [a][..0] == [];
  }

  /** The entry count of a matrix. */
  lemma ProductOfTwo(a: nat, b: nat)
    ensures Product([a, b]) == a * b
  {
    assert [a, b][..1] == [a];
    ProductOfOne(a);
  }

  /** The entry count of a rank-3 tensor. */
  lemma ProductOfThree(a: nat, b: nat, c: nat)
    ensures Product([a, b, c]) == a * b * c
  {
    assert [a, b, c][..2] == [a, b];
    ProductOfTwo(a, b);
  }

  /** `get_num_parameters`: the sum over all parameter tensors of the
      product of their dimensions, computed with the source's two loops. */
  method NumParameters(net: Net) returns (pp: nat)
    ensures pp == 400 * net.featDim + 25 * net.encodeLen * net.encodeLen + net.encodeLen + 60175
  {
    var params := ParamShapes(net);
    pp := 0;
    for i := 0 to |params|
      invariant pp == SumOfProducts(params[..i])
    {
      var p := params[i];
      var nn: nat := 1;
      for j := 0 to |p|
        invariant nn == Product(p[..j])
      {
        assert p[..j + 1][..j] == p[..j];
        nn := nn * p[j];
      }
      assert p[..|p|] == p;
      assert params[..i + 1][..i] == params[..i];
      pp := pp + nn;
    }
    assert params[..|params|] == params;
    ParamCountClosedForm(net);
  }

  /** The hyperparameters `get_data_based_model_params` reads off the
      training windows. */
  datatype DataParams = DataParams(featDim: nat, encodeLen: nat)

  /** `get_data_based_model_params`: feat_dim is the third and encode_len
      the second dimension of X; an X of rank below 3 has no such
      dimension (IndexError). */
  function DataBasedModelParams(xShape: Shape): (r: Result<DataParams>)
    ensures r.Ok? <==> |xShape| >= 3
    ensures r.Err? ==> r.error == IndexOutOfRange
    ensures r.Ok? ==> r.value.featDim == xShape[2] && r.value.encodeLen == xShape[1]
  {
    if |xShape| < 3 then Err(IndexOutOfRange) else Ok(DataParams(xShape[2], xShape[1]))
  }

  /** A network sized from the training windows accepts those windows, and
      any batch of windows of the same shape, exactly when they have rank 3
      and at least one time step; it then returns one row of encode_len
      outputs per window. */
  lemma DataSizedNetAcceptsItsData(xShape: Shape, latentDim: int, activation: string, batch: nat)
    requires |xShape| >= 3
    ensures var p := DataBasedModelParams(xShape).value;
      var net := Net(p.featDim, latentDim, 3, p.encodeLen, activation);
      var input := [batch, xShape[1], xShape[2]];
      && (Forward(net, input).Ok? <==> xShape[1] >= 1)
      && (Forward(net, input).Ok? ==> Forward(net, input).value == [batch, xShape[1]])
      && (Forward(net, xShape).Ok? <==> |xShape| == 3 && xShape[1] >= 1)
  {
  }
}
