/**
  Values that travel between the browser, the image-analysis server and the
  remote classifier.
 */
module Wire {

  /**
    One label the classifier attaches to an image. The server sends the
    probability as a percentage with two decimals ("92.50"); here it is the
    integer number of hundredths of a percent (9250), so comparing parsed
    probabilities is comparing integers.
   */
  datatype Prediction = Prediction(tagName: string, probability: int)

  /**
    An image the user selected in the browser, as the server's upload
    middleware hands it over: the name the browser sent, the declared media
    type and the bytes (whose length is the reported size).
   */
  datatype ImageFile = ImageFile(originalname: string, mimetype: string, buffer: seq<bv8>)
}
